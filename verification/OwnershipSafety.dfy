/** Safety of the ownership protocol under every interleaving of claimants. */
module OwnershipSafety {

  import opened Common
  import opened Processes
  import opened JobModel
  import opened OwnershipModel

  predicate Probed(s: Stage) {
    (s.OwnerDead? || s.MirrorRead? || s.MirrorDead? || s.Ready?) && s.seen.Some?
  }

  ghost predicate Sound(w: World) {
    && (forall pid :: pid in w.alive ==> Proc(pid, w.alive[pid]) in w.born)
    && (forall o :: o in w.used ==> o.Holder() in w.born)
    && (forall p :: p in w.claims ==> ClaimSound(w, p, w.claims[p]))
    // the row belongs to its live holder, or to a process that is gone
    && (w.db.row.Some? ==>
          && w.db.row.value in w.used
          && (Alive(w, w.db.row.value.Holder()) ==>
                w.db.row.value.Holder() in w.claims
                && w.claims[w.db.row.value.Holder()] == Claim(w.db.row.value, Holding)))
    // a generation that was taken over is dead and has no lease left
    && (forall o :: o in w.replaced ==> o in w.used && !Alive(w, o.Holder()))
    && (forall id :: id in w.db.jobs ==> LeaseSound(w, w.db.jobs[id]))
  }

  ghost predicate ClaimSound(w: World, p: Proc, c: Claim) {
    && p in w.born && c.me.Holder() == p && c.me in w.used
    && (c.stage.Read? && c.stage.seen.Some? ==> c.stage.seen.value in w.used)
    && (Probed(c.stage) ==> c.stage.seen.value in w.used && !Alive(w, c.stage.seen.value.Holder()))
    && (c.stage == Holding && Alive(w, p) ==> w.db.row == Some(c.me))
  }

  ghost predicate LeaseSound(w: World, job: Job) {
    job.state.Leased? && job.state.token.owner.DaemonOwner? ==>
      var daemon := job.state.token.owner.daemon;
      daemon in w.used && daemon !in w.replaced && !daemon.IsMaintenance()
  }

  /** Waiting claimants move between stages without touching the database. */
  lemma MoveSound(w: World, p: Proc, stage: Stage)
    requires Sound(w) && At(w, p) && w.claims[p].stage != Holding && stage != Holding
    requires (stage.Read? || Probed(stage)) && stage.seen.Some? ==> stage.seen.value in w.used
    requires Probed(stage) ==> !Alive(w, stage.seen.value.Holder())
    ensures Sound(Move(w, p, stage))
  {
    var w' := Move(w, p, stage);
    forall q | q in w'.claims ensures ClaimSound(w', q, w'.claims[q]) {
      assert ClaimSound(w, q, w.claims[q]);
    }
    forall id | id in w'.db.jobs ensures LeaseSound(w', w'.db.jobs[id]) {
      assert LeaseSound(w, w.db.jobs[id]);
    }
  }

  lemma LifeSound(w: World, e: Event)
    requires Sound(w) && Enabled(w, e) && (e.Spawn? || e.Die? || e.Begin?)
    ensures Sound(Step(w, e))
  {
    var w' := Step(w, e);
    forall q: Proc | q in w.born && !Alive(w, q) ensures !Alive(w', q) {
    }
    forall q | q in w'.claims ensures ClaimSound(w', q, w'.claims[q]) {
      if q in w.claims { assert ClaimSound(w, q, w.claims[q]); }
    }
    forall id | id in w'.db.jobs ensures LeaseSound(w', w'.db.jobs[id]) {
      assert LeaseSound(w, w.db.jobs[id]);
    }
  }

  lemma SwapReclaims(t: Table, owner: JobOwner, now: int)
    ensures !HasLeases(RecoverAfterDeath(t, owner, now), owner)
    ensures forall id ::
      id in RecoverAfterDeath(t, owner, now) && RecoverAfterDeath(t, owner, now)[id].state.Leased? ==>
      RecoverAfterDeath(t, owner, now)[id] == t[id]
  {
  }

  /** Taking over leaves no lease of the generation that is replaced. */
  lemma CommitClears(w: World, c: Claim, now: int)
    requires c.stage.Ready? && Commit(w, c, now).0 == Acquired
    ensures var db := Commit(w, c, now).1;
      && (forall id :: id in db.jobs && db.jobs[id].state.Leased? ==> id in w.db.jobs && db.jobs[id] == w.db.jobs[id])
      && (c.stage.seen.Some? && !c.stage.seen.value.IsMaintenance() ==>
            !HasLeases(db.jobs, DaemonOwner(c.stage.seen.value)))
  {
    var predecessor := Predecessor(c.stage.seen, c.stage.mirror);
    if predecessor.Some? && !c.me.IsMaintenance() { SwapReclaims(w.db.jobs, predecessor.value, now); }
  }

  lemma AcquireSound(w: World, p: Proc, now: int)
    requires Sound(w) && At(w, p) && w.claims[p].stage.Ready?
    requires Commit(w, w.claims[p], now).0 == Acquired
    ensures Sound(Step(w, TryCommit(p, now)))
  {
    var c := w.claims[p];
    var w' := Step(w, TryCommit(p, now));
    CommitClears(w, c, now);
    assert ClaimSound(w, p, c);
    forall q | q in w'.claims ensures ClaimSound(w', q, w'.claims[q]) {
      assert ClaimSound(w, q, w.claims[q]);
    }
    forall id | id in w'.db.jobs ensures LeaseSound(w', w'.db.jobs[id]) {
      if w'.db.jobs[id].state.Leased? { assert LeaseSound(w, w.db.jobs[id]); }
    }
  }

  /** A row is deleted by its holder, or once its holder is gone. */
  lemma DeleteSound(w: World, w': World, o: Ownership)
    requires Sound(w)
    requires w' == w.(db := Delete(w.db, o), claims := w'.claims)
    requires w'.claims.Keys == w.claims.Keys
    requires forall q :: q in w.claims && q != o.Holder() ==> w'.claims[q] == w.claims[q]
    requires Alive(w, o.Holder()) ==>
      o.Holder() in w.claims && w.claims[o.Holder()] == Claim(o, Holding)
      && w'.claims[o.Holder()] == Claim(o, Finished)
    requires !Alive(w, o.Holder()) ==> w'.claims == w.claims
    ensures Sound(w')
  {
    forall q | q in w'.claims ensures ClaimSound(w', q, w'.claims[q]) {
      assert ClaimSound(w, q, w.claims[q]);
    }
    forall id | id in w'.db.jobs ensures LeaseSound(w', w'.db.jobs[id]) {
      assert LeaseSound(w, w.db.jobs[id]);
    }
  }

  lemma JobsSound(w: World, e: Event)
    requires Sound(w) && Enabled(w, e) && (e.LeaseJob? || e.OtherJobWork?)
    ensures Sound(Step(w, e))
  {
    var w' := Step(w, e);
    forall q | q in w'.claims ensures ClaimSound(w', q, w'.claims[q]) {
      assert ClaimSound(w, q, w.claims[q]);
    }
    forall id | id in w'.db.jobs ensures LeaseSound(w', w'.db.jobs[id]) {
      if id in w.db.jobs { assert LeaseSound(w, w.db.jobs[id]); }
    }
  }

  /** A claimant that is not yet holding reads, probes, commits or gives up. */
  lemma WaitingStepSound(w: World, e: Event)
    requires Sound(w) && Enabled(w, e)
    requires
      || e.ReadRow? || e.ProbeOwner? || e.ReadMirror? || e.ProbeMirror?
      || e.ProbeHeartbeat? || e.TryCommit? || e.GiveUp?
    ensures Sound(Step(w, e))
  {
    var p := e.p;
    var c := w.claims[p];
    assert ClaimSound(w, p, c);
    match e
    case ReadRow(_) => MoveSound(w, p, Read(w.db.row));
    case ProbeOwner(_, known) =>
      MoveSound(w, p, if ProvenDead(w, c.stage.seen.value, known) then OwnerDead(c.stage.seen) else Finished);
    case ReadMirror(_) => MoveSound(w, p, MirrorRead(c.stage.seen, w.db.mirror));
    case ProbeMirror(_) =>
      MoveSound(w, p, Finished);
      MoveSound(w, p, MirrorDead(c.stage.seen, c.stage.mirror));
    case ProbeHeartbeat(_, _) =>
      MoveSound(w, p, Finished);
      MoveSound(w, p, Ready(c.stage.seen, c.stage.mirror));
    case TryCommit(_, now) =>
      match Commit(w, c, now).0 {
        case Acquired => AcquireSound(w, p, now);
        case Contended => MoveSound(w, p, Start);
        case Denied => MoveSound(w, p, Finished);
      }
    case GiveUp(_) => MoveSound(w, p, Finished);
  }

  lemma HoldingStepSound(w: World, e: Event)
    requires Sound(w) && Enabled(w, e) && (e.PublishMirror? || e.Release?)
    ensures Sound(Step(w, e))
  {
    var p := e.p;
    var me := w.claims[p].me;
    assert ClaimSound(w, p, w.claims[p]);
    if e.PublishMirror? && w.db.row == Some(me) && w.db.mirror.None? {
      var w' := Step(w, e);
      forall q | q in w'.claims ensures ClaimSound(w', q, w'.claims[q]) {
        assert ClaimSound(w, q, w.claims[q]);
      }
      forall id | id in w'.db.jobs ensures LeaseSound(w', w'.db.jobs[id]) {
        assert LeaseSound(w, w.db.jobs[id]);
      }
    } else {
      DeleteSound(w, Step(w, e), me);
    }
  }

  lemma StepSound(w: World, e: Event)
    requires Sound(w) && Enabled(w, e)
    ensures Sound(Step(w, e))
  {
    if e.Spawn? || e.Die? || e.Begin? {
      LifeSound(w, e);
    } else if e.PublishMirror? || e.Release? {
      HoldingStepSound(w, e);
    } else if e.ClearDead? {
      DeleteSound(w, Step(w, e), e.target);
    } else if e.LeaseJob? || e.OtherJobWork? {
      JobsSound(w, e);
    } else {
      WaitingStepSound(w, e);
    }
  }

  lemma {:induction false} EveryRunSound(w: World, events: seq<Event>, w': World)
    requires Sound(w) && Reaches(w, events, w')
    ensures Sound(w')
    decreases |events|
  {
    if events != [] {
      StepSound(w, events[0]);
      EveryRunSound(Step(w, events[0]), events[1..], w');
    }
  }

  lemma InitialSound(w: World)
    requires Initial(w)
    ensures Sound(w)
  {
  }

  // ------------------------------------------------------------------ main results

  /** At most one live process holds authority, daemon or maintenance alike, and the
      row is its record. */
  lemma OneLiveHolder(w: World, events: seq<Event>, w': World, p: Proc, q: Proc)
    requires Initial(w) && Reaches(w, events, w')
    requires At(w', p) && w'.claims[p].stage == Holding
    requires At(w', q) && w'.claims[q].stage == Holding
    ensures p == q && w'.db.row == Some(w'.claims[p].me)
  {
    InitialSound(w);
    EveryRunSound(w, events, w');
    assert ClaimSound(w', p, w'.claims[p]) && ClaimSound(w', q, w'.claims[q]);
  }

  /** Nobody but the holder itself replaces or removes the row of a live holder. */
  lemma LiveRowIsSafe(w: World, events: seq<Event>, w': World, e: Event, o: Ownership)
    requires Initial(w) && Reaches(w, events, w') && Enabled(w', e)
    requires w'.db.row == Some(o) && Alive(w', o.Holder())
    requires !((e.Release? || e.PublishMirror?) && e.p == o.Holder())
    ensures Step(w', e).db.row == Some(o)
  {
    InitialSound(w);
    EveryRunSound(w, events, w');
    if e.TryCommit? || e.Release? || e.PublishMirror? {
      assert ClaimSound(w', e.p, w'.claims[e.p]);
    }
  }

  /** Once a generation has been taken over it is dead, and no job is ever again
      leased to it: not at the takeover, not later. */
  lemma ReplacedGenerationHasNoLeases(w: World, events: seq<Event>, w': World, o: Ownership)
    requires Initial(w) && Reaches(w, events, w') && o in w'.replaced
    ensures !Alive(w', o.Holder()) && !HasLeases(w'.db.jobs, DaemonOwner(o))
  {
    InitialSound(w);
    EveryRunSound(w, events, w');
    forall id | id in w'.db.jobs ensures !OwnedBy(w'.db.jobs[id], DaemonOwner(o)) {
      assert LeaseSound(w', w'.db.jobs[id]);
    }
  }

  /** A takeover succeeds only against the row and mirror the claimant examined, and
      only over a process that is gone. */
  lemma TakeoverOnlyOfTheDead(w: World, events: seq<Event>, w': World, p: Proc, now: int)
    requires Initial(w) && Reaches(w, events, w') && Enabled(w', TryCommit(p, now))
    requires Commit(w', w'.claims[p], now).0 == Acquired
    ensures w'.db.row == w'.claims[p].stage.seen && w'.db.mirror == w'.claims[p].stage.mirror
    ensures w'.db.row.Some? ==> !Alive(w', w'.db.row.value.Holder())
  {
    InitialSound(w);
    EveryRunSound(w, events, w');
    assert ClaimSound(w', p, w'.claims[p]);
  }
}
