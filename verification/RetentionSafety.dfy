/** What applying a retention plan can and cannot delete: only files eligible in the
    locked state, everything planned when nothing interferes, and nothing twice. */
module RetentionSafety {

  import opened Common
  import opened RetentionModel

  // ------------------------------------------------------------------------- groups

  /** The lanes exclude each other, so a row is in one group at most. */
  lemma LanesApart(db: Db, proof: Proof, a: Key, b: Key)
    requires Eligible(db, proof, a) && Eligible(db, proof, b) && a.id == b.id && OnParts(a) == OnParts(b)
    ensures a == b
  {
  }

  predicate OnParts(key: Key) { key.kind == SessionAudio || key.kind == RejectedSessionAudio }

  predicate SameRow(a: Key, b: Key) { a.id == b.id && OnParts(a) == OnParts(b) }

  lemma GroupShape(db: Db, proof: Proof, key: Key)
    ensures GroupOf(db, proof, key) != [] ==> Eligible(db, proof, key)
    ensures forall k :: 0 <= k < |GroupOf(db, proof, key)| ==> GroupOf(db, proof, key)[k].key == key
  {
    if Eligible(db, proof, key) && !OnParts(key) {
      var row := db.files[key.id];
      FileCandidatesOf(
        key, [row.quarantinePath, row.normalizedPath], OrZero(row.actualBytes), ReasonOf(db, proof, key));
    }
  }

  lemma {:induction false} FileCandidatesOf(key: Key, paths: seq<Option<Path>>, bytes: nat, reason: Reason)
    ensures forall c :: c in FileCandidates(key, paths, bytes, reason) ==> c.key == key
  {
    if paths != [] { FileCandidatesOf(key, paths[..|paths| - 1], bytes, reason); }
  }

  lemma {:induction false} InsertKeeps(c: Candidate, sorted: seq<Candidate>)
    ensures multiset(Insert(c, sorted)) == multiset(sorted) + multiset{c}
  {
    if sorted != [] {
      var front, last := sorted[..|sorted| - 1], sorted[|sorted| - 1];
      assert sorted == front + [last];
      if last.path > c.path { InsertKeeps(c, front); }
    }
  }

  lemma {:induction false} ByPathKeeps(group: seq<Candidate>)
    ensures multiset(ByPath(group)) == multiset(group)
  {
    if group != [] {
      var front, last := group[..|group| - 1], group[|group| - 1];
      assert group == front + [last];
      ByPathKeeps(front);
      InsertKeeps(last, ByPath(front));
    }
  }

  /** The comparison of a planned with a current group ignores order only. */
  lemma SameGroupSameCandidates(planned: seq<Candidate>, current: seq<Candidate>)
    requires SameGroup(planned, current)
    ensures multiset(planned) == multiset(current)
    ensures Paths(planned) == Paths(current)
  {
    ByPathKeeps(planned);
    ByPathKeeps(current);
    PathsOfSame(planned, current);
    PathsOfSame(current, planned);
  }

  lemma PathsOfSame(a: seq<Candidate>, b: seq<Candidate>)
    requires multiset(a) == multiset(b)
    ensures Paths(a) <= Paths(b)
  {
    forall path | path in Paths(a) ensures path in Paths(b) {
      var k :| 0 <= k < |a| && a[k].path == path;
      assert a[k] in multiset(b);
      var j :| 0 <= j < |b| && b[j] == a[k];
    }
  }

  // ------------------------------------------------------------- only what is eligible

  /** A file goes only while the row it belongs to is eligible in the locked database,
      with exactly the paths that were planned; and a row is marked only after that. */
  lemma UnlinkedIsEligible(w: World, proof: Proof, group: seq<Candidate>, env: Env, outcome: Outcome, next: World)
    requires Applied(w, proof, group, env, outcome, next)
    ensures next.disk != w.disk || outcome.Deleted? ==>
      && group != [] && Eligible(Locked(w, env).db, proof, group[0].key)
      && Paths(group) == Paths(GroupOf(Locked(w, env).db, proof, group[0].key))
    ensures next.disk <= w.disk && w.disk - next.disk <= Paths(group)
    ensures outcome.Deleted? ==>
      next.disk !! Paths(group) && next.db == MarkDeleted(Locked(w, env).db, group[0].key, env.at)
    ensures !outcome.Deleted? ==> next.db == Locked(w, env).db
  {
    var db := Locked(w, env).db;
    if StillEligible(db, proof, group) {
      GroupShape(db, proof, group[0].key);
      SameGroupSameCandidates(group, GroupOf(db, proof, group[0].key));
      var n := FirstStuck(group, env.stuck, 0);
      forall path | path in Paths(group[..n]) ensures path in Paths(group) {
        var k :| 0 <= k < n && group[..n][k].path == path;
        assert group[k].path == path;
      }
      assert group[..|group|] == group;
    }
  }

  ghost predicate EligibleUnder(db: Db, proof: Proof, group: seq<Candidate>, path: Path) {
    && group != [] && Eligible(db, proof, group[0].key)
    && path in Paths(GroupOf(db, proof, group[0].key))
  }

  lemma PathWasEligible(
    w: World, proof: Proof, group: seq<Candidate>, env: Env, outcome: Outcome, next: World, path: Path)
    requires Applied(w, proof, group, env, outcome, next) && path in w.disk && path !in next.disk
    ensures EligibleUnder(Locked(w, env).db, proof, group, path)
  {
    UnlinkedIsEligible(w, proof, group, env, outcome, next);
  }

  /** The same for a whole pass: each file that goes was eligible under the lock of its group. */
  lemma {:induction false} EveryUnlinkIsEligible(
    worlds: seq<World>, proof: Proof, groups: seq<seq<Candidate>>, envs: seq<Env>, outcomes: seq<Outcome>, n: nat,
    path: Path)
    requires Pass(worlds, proof, groups, envs, outcomes) && n <= |groups|
    requires path in worlds[0].disk && path !in worlds[n].disk
    ensures exists k: nat :: k < n && EligibleUnder(Locked(worlds[k], envs[k]).db, proof, groups[k], path)
  {
    if path !in worlds[n - 1].disk {
      EveryUnlinkIsEligible(worlds, proof, groups, envs, outcomes, n - 1, path);
    } else {
      assert StepOf(worlds, proof, groups, envs, outcomes, n - 1);
      PathWasEligible(worlds[n - 1], proof, groups[n - 1], envs[n - 1], outcomes[n - 1], worlds[n], path);
    }
  }

  // --------------------------------------------------------------------- nothing twice

  predicate Gone(db: Db, key: Key) {
    if OnParts(key) then key.id in db.parts && db.parts[key.id].deletedAt.Some?
    else key.id in db.files && db.files[key.id].deletedAt.Some?
  }

  /** Other transactions never take a deletion back. */
  ghost predicate KeepsDeletions(db: Db, next: Db) {
    forall key {:trigger Gone(next, key)} :: Gone(db, key) ==> Gone(next, key)
  }

  ghost predicate Meanwhile(w: World, env: Env) { KeepsDeletions(w.db, Locked(w, env).db) }

  lemma GoneIsNotEligible(db: Db, proof: Proof, key: Key)
    requires Gone(db, key)
    ensures !Eligible(db, proof, key) && GroupOf(db, proof, key) == []
  {
  }

  lemma MarkKeepsGone(db: Db, key: Key, at: int, other: Key)
    requires Gone(db, other)
    ensures Gone(MarkDeleted(db, key, at), other)
  {
  }

  lemma EligibleIsThere(db: Db, proof: Proof, key: Key, at: int)
    requires Eligible(db, proof, key)
    ensures Gone(MarkDeleted(db, key, at), key)
  {
  }

  lemma ApplyKeepsGone(
    w: World, proof: Proof, group: seq<Candidate>, env: Env, outcome: Outcome, next: World, key: Key)
    requires Applied(w, proof, group, env, outcome, next) && Meanwhile(w, env) && Gone(w.db, key)
    ensures Gone(next.db, key)
  {
    assert Gone(Locked(w, env).db, key);
    if group != [] { MarkKeepsGone(Locked(w, env).db, group[0].key, env.at, key); }
  }

  lemma DeletedIsGone(w: World, proof: Proof, group: seq<Candidate>, env: Env, outcome: Outcome, next: World)
    requires Applied(w, proof, group, env, outcome, next) && outcome.Deleted?
    ensures group != [] && Gone(next.db, group[0].key)
  {
    UnlinkedIsEligible(w, proof, group, env, outcome, next);
    EligibleIsThere(Locked(w, env).db, proof, group[0].key, env.at);
  }

  lemma {:induction false} GoneStaysGone(
    worlds: seq<World>, proof: Proof, groups: seq<seq<Candidate>>, envs: seq<Env>, outcomes: seq<Outcome>,
    j: nat, n: nat, key: Key)
    requires Pass(worlds, proof, groups, envs, outcomes) && j <= n <= |groups|
    requires forall k :: 0 <= k < |groups| ==> Meanwhile(worlds[k], envs[k])
    requires Gone(worlds[j].db, key)
    ensures Gone(worlds[n].db, key)
  {
    if j < n {
      GoneStaysGone(worlds, proof, groups, envs, outcomes, j, n - 1, key);
      assert StepOf(worlds, proof, groups, envs, outcomes, n - 1);
      ApplyKeepsGone(worlds[n - 1], proof, groups[n - 1], envs[n - 1], outcomes[n - 1], worlds[n], key);
    }
  }

  /** A row is deleted at most once, by whichever plan it is tried. */
  lemma GoneIsStale(w: World, proof: Proof, group: seq<Candidate>, env: Env, outcome: Outcome, next: World)
    requires group != [] && Gone(w.db, group[0].key) && Meanwhile(w, env)
    requires Applied(w, proof, group, env, outcome, next)
    ensures next == Locked(w, env) && outcome == Stale
  {
    assert Gone(Locked(w, env).db, group[0].key);
    GoneIsNotEligible(Locked(w, env).db, proof, group[0].key);
  }

  /** What one pass deleted, a later attempt under any plan finds stale. */
  lemma DeletedOnce(
    worlds: seq<World>, proof: Proof, groups: seq<seq<Candidate>>, envs: seq<Env>, outcomes: seq<Outcome>, j: nat,
    again: Proof, group: seq<Candidate>, env: Env, outcome: Outcome, next: World)
    requires Pass(worlds, proof, groups, envs, outcomes) && j < |groups| && outcomes[j].Deleted?
    requires forall k :: 0 <= k < |groups| ==> Meanwhile(worlds[k], envs[k])
    requires groups[j] != [] && group != [] && group[0].key == groups[j][0].key
    requires Meanwhile(worlds[|groups|], env) && Applied(worlds[|groups|], again, group, env, outcome, next)
    ensures outcome == Stale && next == Locked(worlds[|groups|], env)
  {
    assert StepOf(worlds, proof, groups, envs, outcomes, j);
    DeletedIsGone(worlds[j], proof, groups[j], envs[j], outcomes[j], worlds[j + 1]);
    GoneStaysGone(worlds, proof, groups, envs, outcomes, j + 1, |groups|, groups[j][0].key);
    GoneIsStale(worlds[|groups|], again, group, env, outcome, next);
  }

  // ---------------------------------------------------------------- all that is planned

  /** The groups of a plan: what each row of each lane comes to, every row once. */
  ghost predicate PlanGroups(db: Db, proof: Proof, groups: seq<seq<Candidate>>) {
    && (forall k {:trigger groups[k]} :: 0 <= k < |groups| ==> groups[k] != [] && IsGroup(db, proof, groups[k]))
    && (forall j, k :: 0 <= j < k < |groups| ==>
          groups[j] != [] && groups[k] != [] && groups[j][0].key != groups[k][0].key)
    && (forall key :: GroupOf(db, proof, key) != [] ==> GroupOf(db, proof, key) in groups)
  }

  ghost predicate IsGroup(db: Db, proof: Proof, group: seq<Candidate>) {
    group != [] && GroupOf(db, proof, group[0].key) == group
  }

  predicate Calm(env: Env) { env.meanwhile.None? && env.stuck == {} && !env.commitFails }

  /** Deleting one row leaves every other row's eligibility as it was. */
  lemma MarkingIsLocal(db: Db, proof: Proof, key: Key, at: int, other: Key)
    requires !SameRow(key, other)
    ensures GroupOf(MarkDeleted(db, key, at), proof, other) == GroupOf(db, proof, other)
  {
    MarkedRow(db, key, at, other);
    if OnParts(other) {
      SamePartFacts(db, MarkDeleted(db, key, at), proof, other);
    } else {
      SameFileFacts(db, MarkDeleted(db, key, at), proof, other);
    }
  }

  lemma MarkedRow(db: Db, key: Key, at: int, other: Key)
    requires !SameRow(key, other)
    ensures
      var next := MarkDeleted(db, key, at);
      && next == db.(parts := next.parts, files := next.files)
      && (OnParts(other) ==>
            && (other.id in next.parts <==> other.id in db.parts)
            && (other.id in db.parts ==> next.parts[other.id] == db.parts[other.id]))
      && (!OnParts(other) ==>
            && (other.id in next.files <==> other.id in db.files)
            && (other.id in db.files ==> next.files[other.id] == db.files[other.id]))
  {
  }

  lemma SamePartFacts(db: Db, next: Db, proof: Proof, key: Key)
    requires OnParts(key) && next.sessions == db.sessions && next.outbox == db.outbox && next.jobs == db.jobs
    requires next.currentRevisions == db.currentRevisions
    requires key.id in next.parts <==> key.id in db.parts
    requires key.id in db.parts ==> next.parts[key.id] == db.parts[key.id]
    ensures GroupOf(next, proof, key) == GroupOf(db, proof, key)
  {
  }

  lemma SameFileFacts(db: Db, next: Db, proof: Proof, key: Key)
    requires !OnParts(key) && next.outbox == db.outbox && next.jobs == db.jobs
    requires next.incomingRevisions == db.incomingRevisions
    requires key.id in next.files <==> key.id in db.files
    requires key.id in db.files ==> next.files[key.id] == db.files[key.id]
    ensures GroupOf(next, proof, key) == GroupOf(db, proof, key)
  {
  }

  lemma OtherRow(db: Db, proof: Proof, a: Key, b: Key)
    requires GroupOf(db, proof, a) != [] && GroupOf(db, proof, b) != [] && a != b
    ensures !SameRow(a, b)
  {
    GroupShape(db, proof, a);
    GroupShape(db, proof, b);
    if SameRow(a, b) { LanesApart(db, proof, a, b); }
  }

  lemma GroupStays(db: Db, proof: Proof, key: Key, at: int, group: seq<Candidate>)
    requires GroupOf(db, proof, key) != [] && IsGroup(db, proof, group) && group[0].key != key
    ensures IsGroup(MarkDeleted(db, key, at), proof, group)
  {
    OtherRow(db, proof, key, group[0].key);
    MarkingIsLocal(db, proof, key, at, group[0].key);
  }

  function AllPaths(groups: seq<seq<Candidate>>, n: nat): set<Path>
    requires n <= |groups|
  {
    if n == 0 then {} else AllPaths(groups, n - 1) + Paths(groups[n - 1])
  }

  /** The plan carried out up to `n`. */
  ghost predicate DoneUpTo(disk: set<Path>, proof: Proof, groups: seq<seq<Candidate>>, n: nat, now: World)
    requires n <= |groups|
  {
    && now.disk == disk - AllPaths(groups, n)
    && (forall k {:trigger IsGroup(now.db, proof, groups[k])} :: n <= k < |groups| ==>
          IsGroup(now.db, proof, groups[k]))
    && (forall k :: 0 <= k < n ==> groups[k] != [] && Gone(now.db, groups[k][0].key))
  }

  lemma CalmGroup(w: World, proof: Proof, group: seq<Candidate>, env: Env, outcome: Outcome, next: World)
    requires IsGroup(w.db, proof, group) && Calm(env) && Applied(w, proof, group, env, outcome, next)
    ensures next == World(MarkDeleted(w.db, group[0].key, env.at), w.disk - Paths(group))
    ensures outcome == Deleted(TotalBytes(group)) && Gone(next.db, group[0].key)
  {
    GroupShape(w.db, proof, group[0].key);
    EligibleIsThere(w.db, proof, group[0].key, env.at);
    GroupIsEligible(w.db, proof, group);
    NothingStuck(group);
  }

  lemma GroupIsEligible(db: Db, proof: Proof, group: seq<Candidate>)
    requires IsGroup(db, proof, group)
    ensures StillEligible(db, proof, group)
  {
    GroupShape(db, proof, group[0].key);
  }

  lemma NothingStuck(group: seq<Candidate>)
    ensures FirstStuck(group, {}, 0) == |group| && group[..|group|] == group
  {
  }

  lemma PlanBegins(w: World, proof: Proof, groups: seq<seq<Candidate>>)
    requires PlanGroups(w.db, proof, groups)
    ensures DoneUpTo(w.disk, proof, groups, 0, w)
  {
  }

  lemma CalmStep(
    disk: set<Path>, proof: Proof, groups: seq<seq<Candidate>>, n: nat, w: World, env: Env, outcome: Outcome,
    next: World)
    requires forall j, k :: 0 <= j < k < |groups| ==>
      groups[j] != [] && groups[k] != [] && groups[j][0].key != groups[k][0].key
    requires n < |groups| && Calm(env) && DoneUpTo(disk, proof, groups, n, w)
    requires Applied(w, proof, groups[n], env, outcome, next)
    ensures DoneUpTo(disk, proof, groups, n + 1, next) && outcome == Deleted(TotalBytes(groups[n]))
  {
    assert IsGroup(w.db, proof, groups[n]);
    var key := groups[n][0].key;
    CalmGroup(w, proof, groups[n], env, outcome, next);
    forall k | n + 1 <= k < |groups| ensures IsGroup(next.db, proof, groups[k]) {
      assert IsGroup(w.db, proof, groups[k]);
      GroupStays(w.db, proof, key, env.at, groups[k]);
    }
    forall k | 0 <= k < n ensures Gone(next.db, groups[k][0].key) {
      MarkKeepsGone(w.db, key, env.at, groups[k][0].key);
    }
  }

  /** With nothing in the way, a plan is carried out whole: every planned file is gone,
      every planned row marked, every group deleted. */
  lemma {:induction false} CalmApplyDeletesPlan(
    worlds: seq<World>, proof: Proof, groups: seq<seq<Candidate>>, envs: seq<Env>, outcomes: seq<Outcome>, n: nat)
    requires Pass(worlds, proof, groups, envs, outcomes) && n <= |groups| && PlanGroups(worlds[0].db, proof, groups)
    requires forall k :: 0 <= k < |groups| ==> Calm(envs[k])
    ensures DoneUpTo(worlds[0].disk, proof, groups, n, worlds[n])
    ensures forall k :: 0 <= k < n ==> outcomes[k] == Deleted(TotalBytes(groups[k]))
  {
    if n == 0 {
      PlanBegins(worlds[0], proof, groups);
    } else {
      CalmApplyDeletesPlan(worlds, proof, groups, envs, outcomes, n - 1);
      assert StepOf(worlds, proof, groups, envs, outcomes, n - 1);
      CalmStep(worlds[0].disk, proof, groups, n - 1, worlds[n - 1], envs[n - 1], outcomes[n - 1], worlds[n]);
    }
  }

  function AllBytes(groups: seq<seq<Candidate>>): nat {
    if groups == [] then 0 else AllBytes(groups[..|groups| - 1]) + TotalBytes(groups[|groups| - 1])
  }

  function AllCount(groups: seq<seq<Candidate>>): nat {
    if groups == [] then 0 else AllCount(groups[..|groups| - 1]) + |groups[|groups| - 1]|
  }

  /** Then the result accounts for every file and every byte of the plan, and no error. */
  lemma {:induction false} AllDeletedTally(groups: seq<seq<Candidate>>, outcomes: seq<Outcome>)
    requires |groups| == |outcomes|
    requires forall k :: 0 <= k < |groups| ==> outcomes[k] == Deleted(TotalBytes(groups[k]))
    ensures Tally(groups, outcomes) == ApplyResult(AllCount(groups), AllBytes(groups), [])
  {
    if groups != [] { AllDeletedTally(groups[..|groups| - 1], outcomes[..|groups| - 1]); }
  }

  lemma {:induction false} AllStaleTally(groups: seq<seq<Candidate>>, outcomes: seq<Outcome>)
    requires |groups| == |outcomes| && forall k :: 0 <= k < |groups| ==> outcomes[k] == Stale
    ensures Tally(groups, outcomes).deleted == 0 && Tally(groups, outcomes).freedBytes == 0
  {
    if groups != [] { AllStaleTally(groups[..|groups| - 1], outcomes[..|groups| - 1]); }
  }

  /** Applying a plan again, after a pass that deleted every group, deletes nothing. */
  lemma RepeatDeletesNothing(
    worlds: seq<World>, proof: Proof, groups: seq<seq<Candidate>>, envs: seq<Env>, outcomes: seq<Outcome>,
    later: seq<World>, again: seq<Env>, repeated: seq<Outcome>)
    requires Pass(worlds, proof, groups, envs, outcomes) && forall k :: 0 <= k < |groups| ==> outcomes[k].Deleted?
    requires Pass(later, proof, groups, again, repeated) && later[0] == worlds[|groups|]
    requires forall i :: 0 <= i < |groups| ==> Meanwhile(worlds[i], envs[i]) && Meanwhile(later[i], again[i])
    ensures forall k :: 0 <= k < |groups| ==> repeated[k] == Stale
    ensures later[|groups|].disk == worlds[|groups|].disk
    ensures Tally(groups, repeated).deleted == 0 && Tally(groups, repeated).freedBytes == 0
  {
    forall k | 0 <= k < |groups| ensures groups[k] != [] && Gone(later[0].db, groups[k][0].key) {
      assert StepOf(worlds, proof, groups, envs, outcomes, k);
      DeletedIsGone(worlds[k], proof, groups[k], envs[k], outcomes[k], worlds[k + 1]);
      GoneStaysGone(worlds, proof, groups, envs, outcomes, k + 1, |groups|, groups[k][0].key);
    }
    AllStale(later, proof, groups, again, repeated, |groups|);
    AllStaleTally(groups, repeated);
  }

  lemma {:induction false} AllStale(
    worlds: seq<World>, proof: Proof, groups: seq<seq<Candidate>>, envs: seq<Env>, outcomes: seq<Outcome>, n: nat)
    requires Pass(worlds, proof, groups, envs, outcomes) && n <= |groups|
    requires forall k :: 0 <= k < |groups| ==> Meanwhile(worlds[k], envs[k])
    requires forall k :: 0 <= k < |groups| ==> groups[k] != [] && Gone(worlds[0].db, groups[k][0].key)
    ensures worlds[n].disk == worlds[0].disk && forall k :: 0 <= k < n ==> outcomes[k] == Stale
  {
    if n > 0 {
      AllStale(worlds, proof, groups, envs, outcomes, n - 1);
      GoneStaysGone(worlds, proof, groups, envs, outcomes, 0, n - 1, groups[n - 1][0].key);
      assert StepOf(worlds, proof, groups, envs, outcomes, n - 1);
      GoneIsStale(worlds[n - 1], proof, groups[n - 1], envs[n - 1], outcomes[n - 1], worlds[n]);
    }
  }

  lemma RepeatFindsGone(
    worlds: seq<World>, proof: Proof, groups: seq<seq<Candidate>>, envs: seq<Env>, outcomes: seq<Outcome>,
    later: seq<World>, again: seq<Env>, repeated: seq<Outcome>, k: nat)
    requires Pass(worlds, proof, groups, envs, outcomes) && k < |groups| && outcomes[k].Deleted?
    requires Pass(later, proof, groups, again, repeated) && later[0] == worlds[|groups|]
    requires forall i :: 0 <= i < |groups| ==> Meanwhile(worlds[i], envs[i]) && Meanwhile(later[i], again[i])
    ensures groups[k] != [] && Gone(later[k].db, groups[k][0].key)
  {
    assert StepOf(worlds, proof, groups, envs, outcomes, k);
    DeletedIsGone(worlds[k], proof, groups[k], envs[k], outcomes[k], worlds[k + 1]);
    GoneStaysGone(worlds, proof, groups, envs, outcomes, k + 1, |groups|, groups[k][0].key);
    GoneStaysGone(later, proof, groups, again, repeated, 0, k, groups[k][0].key);
  }

  /** Applying a plan again after any pass: what the pass deleted is stale, and a file that
      goes now was eligible in a group the pass did not delete. */
  lemma RepeatDeletesOnlyTheRest(
    worlds: seq<World>, proof: Proof, groups: seq<seq<Candidate>>, envs: seq<Env>, outcomes: seq<Outcome>,
    later: seq<World>, again: seq<Env>, repeated: seq<Outcome>)
    requires Pass(worlds, proof, groups, envs, outcomes)
    requires Pass(later, proof, groups, again, repeated) && later[0] == worlds[|groups|]
    requires forall i :: 0 <= i < |groups| ==> Meanwhile(worlds[i], envs[i]) && Meanwhile(later[i], again[i])
    ensures forall k :: 0 <= k < |groups| && outcomes[k].Deleted? ==> repeated[k] == Stale
    ensures forall path :: path in later[0].disk && path !in later[|groups|].disk ==>
      exists k: nat ::
        k < |groups| && !outcomes[k].Deleted? && EligibleUnder(Locked(later[k], again[k]).db, proof, groups[k], path)
  {
    forall k | 0 <= k < |groups| && outcomes[k].Deleted? ensures repeated[k] == Stale {
      RepeatFindsGone(worlds, proof, groups, envs, outcomes, later, again, repeated, k);
      assert StepOf(later, proof, groups, again, repeated, k);
      GoneIsStale(later[k], proof, groups[k], again[k], repeated[k], later[k + 1]);
    }
    forall path | path in later[0].disk && path !in later[|groups|].disk
      ensures exists k: nat ::
        k < |groups| && !outcomes[k].Deleted? && EligibleUnder(Locked(later[k], again[k]).db, proof, groups[k], path)
    {
      RepeatUnlinksTheRest(worlds, proof, groups, envs, outcomes, later, again, repeated, path);
    }
  }

  lemma RepeatUnlinksTheRest(
    worlds: seq<World>, proof: Proof, groups: seq<seq<Candidate>>, envs: seq<Env>, outcomes: seq<Outcome>,
    later: seq<World>, again: seq<Env>, repeated: seq<Outcome>, path: Path)
    requires Pass(worlds, proof, groups, envs, outcomes)
    requires Pass(later, proof, groups, again, repeated) && later[0] == worlds[|groups|]
    requires forall i :: 0 <= i < |groups| ==> Meanwhile(worlds[i], envs[i]) && Meanwhile(later[i], again[i])
    requires path in later[0].disk && path !in later[|groups|].disk
    ensures exists k: nat ::
      k < |groups| && !outcomes[k].Deleted? && EligibleUnder(Locked(later[k], again[k]).db, proof, groups[k], path)
  {
    EveryUnlinkIsEligible(later, proof, groups, again, repeated, |groups|, path);
    var k: nat :| k < |groups| && EligibleUnder(Locked(later[k], again[k]).db, proof, groups[k], path);
    if outcomes[k].Deleted? {
      RepeatFindsGone(worlds, proof, groups, envs, outcomes, later, again, repeated, k);
      GoneIsNotEligible(Locked(later[k], again[k]).db, proof, groups[k][0].key);
    }
  }
}
