/** Planning and applying retention as it runs (src/retention/policy.ts). */
module RetentionStoreClass {

  import opened Common
  import opened RetentionModel
  import opened RetentionSafety
  import opened RetentionPlanning

  /** `groupCandidates`. */
  method GroupCandidates(candidates: seq<Candidate>) returns (groups: seq<seq<Candidate>>)
    ensures groups == GroupsOf(candidates)
  {
    groups := [];
    var places: map<Key, nat> := map[];
    for n := 0 to |candidates|
      invariant groups == GroupsOf(candidates[..n])
      invariant forall key :: key in places ==> places[key] < |groups| && places[key] == Position(groups, key)
      invariant forall key :: key !in places ==> Position(groups, key) == |groups|
    {
      var c := candidates[n];
      assert candidates[..n + 1][..n] == candidates[..n];
      forall key ensures Position(AddTo(groups, c), key) ==
        if key == c.key then Position(groups, key)
        else if Position(groups, key) == |groups| then |AddTo(groups, c)| else Position(groups, key)
      {
        PositionAfter(groups, c, key);
      }
      if c.key in places {
        groups := groups[places[c.key] := groups[places[c.key]] + [c]];
      } else {
        places := places[c.key := |groups|];
        groups := groups + [[c]];
      }
    }
    assert candidates[..|candidates|] == candidates;
  }

  class RetentionStore {
    var sessions: map<SessionId, SessionRow>
    var parts: map<PartId, PartRow>
    var files: map<FileUid, FileRow>
    var outbox: map<DeliveryId, OutboxRow>
    var jobs: map<JobKey, JobRow>
    var currentRevisions: set<SessionId>
    var incomingRevisions: set<FileUid>
    var disk: set<Path>

    function Tables(): Db
      reads this
    {
      Db(sessions, parts, files, outbox, jobs, currentRevisions, incomingRevisions)
    }

    function Value(): World
      reads this
    {
      World(Tables(), disk)
    }

    /** One lane on top of the ones before it. */
    method PlanLane(kind: Kind, proof: Proof, ghost last: Kind, ghost before: seq<seq<Candidate>>)
      returns (candidates: seq<Candidate>, ghost groups: seq<seq<Candidate>>)
      requires Lanes(Tables(), proof, Earlier(kind), last, {}, before)
      ensures Lanes(Tables(), proof, Through(kind), kind, {}, groups) && Flatten(groups) == Flatten(before) + candidates
    {
      var rows := if kind == SessionAudio || kind == RejectedSessionAudio then parts.Keys else files.Keys;
      candidates, groups := [], before;
      LaneBegins(Tables(), proof, kind, last, rows, before);
      while rows != {}
        invariant Lanes(Tables(), proof, Through(kind), kind, rows, groups)
          && Flatten(groups) == Flatten(before) + candidates
        decreases rows
      {
        var id :| id in rows;
        var found := GroupOf(Tables(), proof, Key(kind, id));
        groups := LaneGoesOn(Tables(), proof, kind, rows, groups, id, before, candidates);
        candidates, rows := candidates + found, rows - {id};
      }
    }

    /** The four lanes, and what their files add up to. */
    method PlanRetention(proof: Proof)
      returns (candidates: seq<Candidate>, totalBytes: nat, ghost groups: seq<seq<Candidate>>)
      ensures candidates == Flatten(groups) && PlanGroups(Tables(), proof, groups)
      ensures totalBytes == TotalBytes(candidates)
    {
      candidates, groups := PlanLanes(proof);
      LanesMakePlan(Tables(), proof, groups);
      totalBytes := SumBytes(candidates);
    }

    method PlanLanes(proof: Proof) returns (candidates: seq<Candidate>, ghost groups: seq<seq<Candidate>>)
      ensures candidates == Flatten(groups) && Lanes(Tables(), proof, Through(Quarantine), Quarantine, {}, groups)
    {
      NoLanes(Tables(), proof);
      candidates, groups := AddLane(SessionAudio, proof, Quarantine, [], []);
      candidates, groups := AddLane(RejectedSessionAudio, proof, SessionAudio, candidates, groups);
      candidates, groups := AddLane(IncomingAudio, proof, RejectedSessionAudio, candidates, groups);
      candidates, groups := AddLane(Quarantine, proof, IncomingAudio, candidates, groups);
    }

    method AddLane(kind: Kind, proof: Proof, ghost last: Kind, so: seq<Candidate>, ghost before: seq<seq<Candidate>>)
      returns (candidates: seq<Candidate>, ghost groups: seq<seq<Candidate>>)
      requires Lanes(Tables(), proof, Earlier(kind), last, {}, before) && so == Flatten(before)
      ensures Lanes(Tables(), proof, Through(kind), kind, {}, groups) && candidates == Flatten(groups)
    {
      var lane;
      lane, groups := PlanLane(kind, proof, last, before);
      candidates := so + lane;
    }

    /** `applyRetention` on a plan made for this database. A plan without its proof
        deletes nothing. */
    method ApplyRetention(candidates: seq<Candidate>, proof: Option<Proof>, envs: seq<Env>)
      returns (r: ApplyResult, ghost worlds: seq<World>, ghost outcomes: seq<Outcome>)
      requires |envs| == |GroupsOf(candidates)|
      modifies this
      ensures proof.None? ==> Value() == old(Value()) && r == ApplyResult(0, 0, StaleErrors(candidates))
      ensures proof.Some? ==>
        && Pass(worlds, proof.value, GroupsOf(candidates), envs, outcomes)
        && worlds[0] == old(Value()) && worlds[|envs|] == Value() && r == Tally(GroupsOf(candidates), outcomes)
    {
      var groups := GroupCandidates(candidates);
      worlds, outcomes := [Value()], [];
      if proof.None? { return ApplyResult(0, 0, StaleErrors(candidates)), worlds, outcomes; }
      r := ApplyResult(0, 0, []);
      for k := 0 to |groups|
        invariant |outcomes| == k && |worlds| == k + 1 && worlds[0] == old(Value()) && worlds[k] == Value()
        invariant PassTo(worlds, proof.value, groups, envs, outcomes, k)
        invariant r == Tally(groups[..k], outcomes)
      {
        var outcome := ApplyCandidateGroup(groups[k], proof.value, envs[k]);
        OneMoreOutcome(worlds, proof.value, groups, envs, outcomes, k, outcome, Value());
        r := Count(r, groups[k], outcome);
        worlds, outcomes := worlds + [Value()], outcomes + [outcome];
      }
      assert groups[..|groups|] == groups;
      WholePass(worlds, proof.value, groups, envs, outcomes);
    }

    /** One group under the write lock. */
    method ApplyCandidateGroup(group: seq<Candidate>, proof: Proof, env: Env) returns (outcome: Outcome)
      modifies this
      ensures Applied(old(Value()), proof, group, env, outcome, Value())
    {
      Yield(env.meanwhile);
      if !StillEligible(Tables(), proof, group) { return Stale; }
      var n := UnlinkAll(group, env.stuck);
      if n < |group| { return Failed(group[n].path); }
      if env.commitFails { return Failed(group[|group| - 1].path); }
      MarkRowDeleted(group[0].key, env.at);
      outcome := Deleted(TotalBytes(group));
    }

    /** What other transactions committed while the loop was waiting. */
    method Yield(meanwhile: Option<Db>)
      modifies this`sessions, this`parts, this`files, this`outbox, this`jobs
      modifies this`currentRevisions, this`incomingRevisions
      ensures Tables() == if meanwhile.Some? then meanwhile.value else old(Tables())
    {
      if meanwhile.Some? {
        var db := meanwhile.value;
        sessions, parts, files, outbox, jobs := db.sessions, db.parts, db.files, db.outbox, db.jobs;
        currentRevisions, incomingRevisions := db.currentRevisions, db.incomingRevisions;
      }
    }

    /** Removes the files of a group in order, up to one that cannot be removed. */
    method UnlinkAll(group: seq<Candidate>, stuck: set<Path>) returns (n: nat)
      modifies this`disk
      ensures n == FirstStuck(group, stuck, 0) && disk == old(disk) - Paths(group[..n])
    {
      n := 0;
      while n < |group| && group[n].path !in stuck
        invariant n <= |group| && FirstStuck(group, stuck, 0) == FirstStuck(group, stuck, n)
        invariant disk == old(disk) - Paths(group[..n])
      {
        PathsGrow(group, n);
        disk := disk - {group[n].path};
        n := n + 1;
      }
    }

    method MarkRowDeleted(key: Key, at: int)
      modifies this`parts, this`files
      ensures Tables() == MarkDeleted(old(Tables()), key, at)
    {
      if key.kind == SessionAudio || key.kind == RejectedSessionAudio {
        if key.id in parts { parts := parts[key.id := parts[key.id].(deletedAt := Some(at))]; }
      } else if key.id in files {
        files := files[key.id := files[key.id].(deletedAt := Some(at), updatedAt := at)];
      }
    }
  }

  /** The lanes before one, and up to it. */
  ghost function Earlier(kind: Kind): set<Kind> {
    match kind
    case SessionAudio => {}
    case RejectedSessionAudio => {SessionAudio}
    case IncomingAudio => {SessionAudio, RejectedSessionAudio}
    case Quarantine => {SessionAudio, RejectedSessionAudio, IncomingAudio}
  }

  ghost function Through(kind: Kind): set<Kind> {
    match kind
    case SessionAudio => {SessionAudio}
    case RejectedSessionAudio => {SessionAudio, RejectedSessionAudio}
    case IncomingAudio => {SessionAudio, RejectedSessionAudio, IncomingAudio}
    case Quarantine => {SessionAudio, RejectedSessionAudio, IncomingAudio, Quarantine}
  }

  lemma LaneBegins(db: Db, proof: Proof, kind: Kind, last: Kind, rows: set<nat>, before: seq<seq<Candidate>>)
    requires Lanes(db, proof, Earlier(kind), last, {}, before)
    requires rows == if OnParts(Key(kind, 0)) then db.parts.Keys else db.files.Keys
    ensures Lanes(db, proof, Through(kind), kind, rows, before)
  {
    forall id: nat | id !in rows
      ensures GroupOf(db, proof, Key(kind, id)) == []
    {
      OnlyStoredRows(db, proof, kind, id);
    }
    NextLane(db, proof, Earlier(kind), last, kind, rows, before);
    assert Through(kind) == Earlier(kind) + {kind};
  }

  lemma LaneGoesOn(
    db: Db, proof: Proof, kind: Kind, rows: set<nat>, groups: seq<seq<Candidate>>, id: nat,
    before: seq<seq<Candidate>>, candidates: seq<Candidate>)
    returns (next: seq<seq<Candidate>>)
    requires Lanes(db, proof, Through(kind), kind, rows, groups) && id in rows
    requires Flatten(groups) == Flatten(before) + candidates
    ensures Lanes(db, proof, Through(kind), kind, rows - {id}, next)
    ensures Flatten(next) == Flatten(before) + (candidates + GroupOf(db, proof, Key(kind, id)))
  {
    var found := GroupOf(db, proof, Key(kind, id));
    OneMoreRow(db, proof, Through(kind), kind, rows, groups, id);
    next := if found == [] then groups else groups + [found];
    Associates(Flatten(before), candidates, found);
  }

  lemma Associates(a: seq<Candidate>, b: seq<Candidate>, c: seq<Candidate>)
    ensures (a + b) + c == a + (b + c)
  {
  }

  lemma NoLanes(db: Db, proof: Proof)
    ensures Lanes(db, proof, Earlier(SessionAudio), Quarantine, {}, []) && Flatten([]) == []
  {
  }

  method SumBytes(candidates: seq<Candidate>) returns (total: nat)
    ensures total == TotalBytes(candidates)
  {
    total := 0;
    for k := 0 to |candidates|
      invariant total == TotalBytes(candidates[..k])
    {
      assert candidates[..k + 1][..k] == candidates[..k];
      total := total + candidates[k].bytes;
    }
    assert candidates[..|candidates|] == candidates;
  }

  method Count(r0: ApplyResult, group: seq<Candidate>, outcome: Outcome) returns (r: ApplyResult)
    ensures r == Counted(r0, group, outcome)
  {
    match outcome {
      case Deleted(bytes) => r := r0.(deleted := r0.deleted + |group|, freedBytes := r0.freedBytes + bytes);
      case Stale => r := r0.(errors := r0.errors + StaleErrors(group));
      case Failed(path) => r := r0.(errors := r0.errors + [CannotRemove(path)]);
    }
  }

  /** The first `n` steps of a pass. */
  ghost predicate PassTo(
    worlds: seq<World>, proof: Proof, groups: seq<seq<Candidate>>, envs: seq<Env>, outcomes: seq<Outcome>, n: nat)
  {
    && n <= |groups| == |envs| && |outcomes| == n && |worlds| == n + 1
    && forall k: nat :: k < n ==> Stepped(worlds, proof, groups, envs, outcomes, k)
  }

  ghost predicate Stepped(
    worlds: seq<World>, proof: Proof, groups: seq<seq<Candidate>>, envs: seq<Env>, outcomes: seq<Outcome>, k: nat)
    requires k < |outcomes| && k < |groups| == |envs| && k + 1 < |worlds|
  {
    Applied(worlds[k], proof, groups[k], envs[k], outcomes[k], worlds[k + 1])
  }

  lemma OneMoreOutcome(
    worlds: seq<World>, proof: Proof, groups: seq<seq<Candidate>>, envs: seq<Env>, outcomes: seq<Outcome>, n: nat,
    outcome: Outcome, next: World)
    requires PassTo(worlds, proof, groups, envs, outcomes, n) && n < |groups|
    requires Applied(worlds[n], proof, groups[n], envs[n], outcome, next)
    ensures PassTo(worlds + [next], proof, groups, envs, outcomes + [outcome], n + 1)
    ensures Tally(groups[..n + 1], outcomes + [outcome]) == Counted(Tally(groups[..n], outcomes), groups[n], outcome)
  {
    forall k: nat | k < n + 1 ensures Stepped(worlds + [next], proof, groups, envs, outcomes + [outcome], k) {
      if k < n { assert Stepped(worlds, proof, groups, envs, outcomes, k); }
    }
    assert groups[..n + 1][..n] == groups[..n] && (outcomes + [outcome])[..n] == outcomes;
  }

  lemma WholePass(worlds: seq<World>, proof: Proof, groups: seq<seq<Candidate>>, envs: seq<Env>, outcomes: seq<Outcome>)
    requires PassTo(worlds, proof, groups, envs, outcomes, |groups|)
    ensures Pass(worlds, proof, groups, envs, outcomes)
  {
    forall k: nat | k < |groups| ensures StepOf(worlds, proof, groups, envs, outcomes, k) {
      assert Stepped(worlds, proof, groups, envs, outcomes, k);
    }
  }

  lemma PathsGrow(group: seq<Candidate>, n: nat)
    requires n < |group|
    ensures Paths(group[..n + 1]) == Paths(group[..n]) + {group[n].path}
  {
    forall path | path in Paths(group[..n]) + {group[n].path} ensures path in Paths(group[..n + 1]) {
      if path in Paths(group[..n]) {
        var k :| 0 <= k < n && group[..n][k].path == path;
        assert group[..n + 1][k].path == path;
      } else {
        assert group[..n + 1][n].path == path;
      }
    }
  }

  /** A plan applied with nothing in the way: every planned file is gone, and the result
      counts every file and every byte of the plan, without an error. */
  lemma PlanIsCarriedOut(
    proof: Proof, groups: seq<seq<Candidate>>, candidates: seq<Candidate>,
    worlds: seq<World>, envs: seq<Env>, outcomes: seq<Outcome>)
    requires candidates == Flatten(groups) && Pass(worlds, proof, GroupsOf(candidates), envs, outcomes)
    requires PlanGroups(worlds[0].db, proof, groups) && forall k :: 0 <= k < |envs| ==> Calm(envs[k])
    ensures GroupsOf(candidates) == groups
    ensures Tally(groups, outcomes) == ApplyResult(|candidates|, TotalBytes(candidates), [])
    ensures DoneUpTo(worlds[0].disk, proof, groups, |groups|, worlds[|groups|])
  {
    PlanIsUniform(worlds[0].db, proof, groups);
    GroupsOfFlatten(groups);
    CalmApplyDeletesPlan(worlds, proof, groups, envs, outcomes, |groups|);
    AllDeletedTally(groups, outcomes);
    FlattenCounts(groups);
  }
}
