/** The continuous mode of a mirror task (src/mirror/mod.rs): passes, prunes and the
    WAL tail in one loop, and the restarts around it. */
module Run {
  import opened Wrappers
  import opened Layout
  import opened SourceDb
  import opened MirrorState
  import opened World
  import opened Pass
  import opened WalTail
  import opened Prune
  import opened Convergence

  /** Seconds; the idle wait doubles up to the first, and an idle mirror with
      retention prunes at least every second. */
  const IDLE_POLL_MAX: nat := 300
  const IDLE_PRUNE_EVERY: nat := 600

  /** How any stretch of a mirror's life moves its state: the source moves on, what
      was committed as a head is remembered, the tail keeps what it has, and the
      target's highest manifest id never goes down. */
  ghost predicate Advances(a: State, b: State) {
    && Later(a.src, b.src)
    && (forall r | r in a.heads :: r in b.heads && b.heads[r] == a.heads[r])
    && (forall r | r in b.heads && r !in a.heads :: b.heads[r] >= a.src.now)
    && a.frontier <= b.frontier
    && (forall h | IsLatest(a.dst, h) :: exists k :: IsLatest(b.dst, k) && h <= k)
  }

  lemma HasLatest(t: Target)
    requires t.manifests != map[]
    ensures IsLatest(t, MaxOf(t.manifests.Keys))
  {
  }

  lemma GrowthAdvances(a: State, b: State)
    requires Grows(a, b)
    ensures Advances(a, b)
  {
    forall h | IsLatest(a.dst, h) ensures exists k :: IsLatest(b.dst, k) && h <= k {
      HasLatest(b.dst);
    }
  }

  lemma ShrinkingAdvances(a: State, b: State)
    requires Shrinks(a, b)
    ensures Advances(a, b)
  {
  }

  lemma AdvancesTrans(a: State, b: State, c: State, cfg: Settings)
    requires Inv(a, cfg) && Inv(b, cfg) && Inv(c, cfg) && Advances(a, b) && Advances(b, c)
    ensures Advances(a, c)
  {
    LaterTrans(a.src, b.src, c.src);
    forall h | IsLatest(a.dst, h) ensures exists k :: IsLatest(c.dst, k) && h <= k {
      var m :| IsLatest(b.dst, m) && h <= m;
    }
  }

  lemma StillAdvances(a: State, cfg: Settings)
    requires Inv(a, cfg)
    ensures Advances(a, a)
  {
    NothingMoved(a, cfg);
    GrowthAdvances(a, a);
  }

  /** The tail stands after a prune as it did before: pruning takes no WAL file above
      the latest manifest, and never the latest manifest. */
  lemma FollowsThroughPrune(a: State, b: State, cfg: Settings, next: nat)
    requires Follows(a, cfg, next) && Shrinks(a, b)
    ensures Follows(b, cfg, next)
  {
    HasLatest(a.dst);
  }

  /** A promised restore point opens: everything it needs is at the target, also for
      checkpoints the source has deleted since. */
  lemma PromisedPointOpens(st: State, cfg: Settings, r: nat)
    requires Inv(st, cfg) && Promised(st, cfg, r)
    ensures r in st.src.hist && forall p | p in Members(st.src.hist[r], st.src.now) :: PresentWhole(st, p)
  {
    assert PointOpen(st, cfg, r) && Sound(st.src, r);
    forall p | p in Members(st.src.hist[r], st.src.now) ensures PresentWhole(st, p) {
      assert Held(st, p);
    }
  }

  /** Spelled out: a manifest once committed as the head of a pass is still at the target
      while it is the highest there or younger than `keep`, and behind each of its
      entries that has not expired the pinned manifest and its objects. */
  lemma PointOpensMeans(st: State, cfg: Settings, r: nat)
    requires Inv(st, cfg) && r in st.heads
    requires cfg.keep.None? || st.src.now - st.heads[r] < cfg.keep.value
             || (r in st.dst.manifests && forall i | i in st.dst.manifests :: i <= r)
    ensures r in st.dst.manifests && r in st.src.hist && st.dst.manifests[r].body == st.src.hist[r]
    ensures forall o | o in Objects(st.src.hist[r]) :: o in st.dst.objs
    ensures forall c | c in st.src.hist[r].checkpoints && (c.expire.None? || c.expire.value > st.src.now) ::
              && c.manifestId in st.dst.manifests && c.manifestId in st.src.hist
              && st.dst.manifests[c.manifestId].body == st.src.hist[c.manifestId]
              && forall o | o in Objects(st.src.hist[c.manifestId]) :: o in st.dst.objs
  {
    assert PointOpen(st, cfg, r) && Held(st, r);
    forall c | c in st.src.hist[r].checkpoints && (c.expire.None? || c.expire.value > st.src.now)
      ensures PresentWhole(st, c.manifestId)
    {
      assert c.manifestId in LivePins(st.src.hist[r], st.src.now) && Held(st, c.manifestId);
    }
  }

  /** One pass plus a prune: the unit of the one-shot command and of periodic mode. */
  method SyncOnce(w: Stores)
    returns (r: PassResult<(PassOutcome, PruneReport)>, ghost trace: Trace, ghost passed: State)
    requires w.Valid()
    modifies w
    ensures w.Valid() && Advances(old(w.st), w.st) && !r.Again?
    ensures Between(old(w.st.src), trace, w.st.src) && Exact(trace) && AllKnown(trace, w.cfg.copier.External?)
    ensures Accounted(old(w.st.dst), trace, w.st.dst)
    ensures r.Fatal? ==> !r.error.Diverged?
    ensures old(w.Quiet()) && CanPass(old(w.st), w.cfg) ==>
              && r.Done? && w.Quiet() && StepsForward(old(w.st), passed, w.cfg, w.pinsPrevious, r.value.0)
              && w.st.src == passed.src && passed.src.head in passed.src.hist
              && LeavesExactly(passed.dst, passed.src, w.cfg, passed.src.now, w.st.dst)
  {
    hide *;
    ghost var start := w.st;
    NoTrace(w.st.src);
    trace := Trace(w.st.src, w.st.src, {}, NO_GUARDS, None);
    var outcome, _ := SyncPass(w);
    passed := w.st;
    PassedClock(start, passed, w.cfg, w.pinsPrevious);
    GrowthAdvances(start, w.st);
    GrowthLosesNothing(start, w.st, trace);
    if outcome.Fatal? { return Fatal(outcome.error), trace, passed; }
    var report;
    report, trace := PruneNow(w);
    ShrinkingAdvances(passed, w.st);
    AdvancesTrans(start, passed, w.st, w.cfg);
    TraceWidens(start, passed, w.st, w.cfg, trace);
    if report.Failed? { return Fatal(StoreError), trace, passed; }
    return Done((outcome.value, report.value)), trace, passed;
  }

  lemma GrowthLosesNothing(a: State, b: State, t: Trace)
    requires Grows(a, b)
    ensures Accounted(a.dst, t, b.dst)
  {
  }

  lemma TraceWidens(a: State, b: State, c: State, cfg: Settings, t: Trace)
    requires Inv(a, cfg) && Inv(b, cfg) && Advances(a, b) && Between(b.src, t, c.src)
    requires Grows(a, b) && Accounted(b.dst, t, c.dst)
    ensures Between(a.src, t, c.src) && Accounted(a.dst, t, c.dst)
  {
    if t.deleted != {} { LaterTrans(a.src, b.src, t.first); }
  }

  /** The wait after `k` rounds without activity. */
  function Backoff(poll: nat, k: nat): (t: nat)
    ensures t <= Max(IDLE_POLL_MAX, poll)
    ensures t >= poll
  {
    if k == 0 then poll else Min(Backoff(poll, k - 1) * 2, Max(IDLE_POLL_MAX, poll))
  }

  /** How a run of the loop ended. */
  datatype Ending = Cancelled | Died(error: MirrorError)

  /** The source's highest manifest id: one LIST. */
  method SourceHeadId(w: Stores) returns (r: Fetch<nat>)
    requires w.Valid()
    modifies w
    ensures w.Valid() && EnvMoves(old(w.st), w.st)
    ensures r.Found? ==> Born(w.st.src) && r.value == w.st.src.head
    ensures r.Missing? ==> !Born(w.st.src)
    ensures old(w.Quiet()) ==> w.Quiet() && w.st == old(w.st) && !r.Failed?
  {
    var head := w.ReadSourceHead();
    match head {
      case Found(m) => return Found(m.id);
      case Missing => return Missing;
      case Failed => return Failed;
    }
  }

  /* What a round does in a quiet world. */

  /** The clock stands still in an undisturbed pass. */
  lemma PassedClock(a: State, b: State, cfg: Settings, previous: bool)
    requires Grows(a, b) && Inv(a, cfg) && Inv(b, cfg)
    ensures a.src.now <= b.src.now
    ensures forall o | CanPass(a, cfg) && StepsForward(a, b, cfg, previous, o) ::
              b.src.now == a.src.now && b.src.head in b.src.hist
  {
    forall o | CanPass(a, cfg) && StepsForward(a, b, cfg, previous, o)
      ensures b.src.now == a.src.now && b.src.head in b.src.hist
    {
      StepSettles(a, b, cfg, previous, o);
      HeadOfSource(b, cfg, None);
    }
  }

  lemma PassMarks(st: State, o: PassOutcome)
    requires Passed(st, o)
    ensures IsLatest(st.dst, o.head)
  {
  }

  /** The latest manifest stays so while the target's manifests do. */
  lemma MarkLasts(a: State, b: State, h: nat)
    requires IsLatest(a.dst, h)
    ensures b.dst.manifests == a.dst.manifests ==> IsLatest(b.dst, h)
    ensures OnlyTails(a, b) ==> b.dst.manifests == a.dst.manifests
  {
  }

  lemma MarkDrifts(a: State, b: State, h: nat)
    requires IsLatest(a.dst, h) && EnvMoves(a, b)
    ensures IsLatest(b.dst, h)
  {
  }

  lemma MarkSurvives(a: State, b: State, h: nat)
    requires IsLatest(a.dst, h) && Shrinks(a, b)
    ensures IsLatest(b.dst, h)
  {
  }

  lemma TimeAdvances(a: State, b: State)
    requires Advances(a, b)
    ensures a.src.now <= b.src.now
  {
  }

  lemma NothingFollowed(a: State, cfg: Settings)
    ensures Followed(a, a, cfg, false)
  {
  }

  lemma TailedOnce(a: State, b: State, cfg: Settings)
    ensures OnlyTails(a, b) ==> Followed(a, b, cfg, false) && b.src.now == a.src.now && b.src == a.src
  {
  }

  lemma PrunedOnce(a: State, b: State, c: State, cfg: Settings)
    ensures (Followed(a, b, cfg, false) && a.src.head in a.src.hist && b.src.head in b.src.hist
             && c == b.(dst := Pruned(b.dst, b.src, cfg, b.src.now))) ==> Followed(a, c, cfg, true)
  {
    if Followed(a, b, cfg, false) && a.src.head in a.src.hist && b.src.head in b.src.hist
       && c == b.(dst := Pruned(b.dst, b.src, cfg, b.src.now)) {
      FollowedByPrune(a, b, c, cfg);
    }
  }

  /** A cached watermark is the source's head exactly when the target is in sync. */
  lemma HeadOfSource(st: State, cfg: Settings, watermark: Option<nat>)
    requires Inv(st, cfg) && (watermark.Some? ==> IsLatest(st.dst, watermark.value))
    ensures CanPass(st, cfg) ==> Born(st.src) && st.src.head in st.src.hist
    ensures Born(st.src) && watermark.Some? ==> (watermark.value == st.src.head <==> InSync(st))
  {
  }

  /** After the pass, the tail and at most one prune. */
  ghost predicate Followed(a: State, b: State, cfg: Settings, pruned: bool) {
    && b.src == a.src && b.writes == a.writes
    && b.dst.manifests == if pruned then PrunedManifests(a.dst.manifests, cfg, a.src.now) else a.dst.manifests
  }

  lemma FollowedByTail(a: State, b: State, c: State, cfg: Settings, pruned: bool)
    requires Followed(a, b, cfg, pruned) && OnlyTails(b, c)
    ensures Followed(a, c, cfg, pruned)
  {
  }

  lemma FollowedByPrune(a: State, b: State, c: State, cfg: Settings)
    requires Followed(a, b, cfg, false) && a.src.head in a.src.hist
    requires c == b.(dst := Pruned(b.dst, b.src, cfg, b.src.now))
    ensures Followed(a, c, cfg, true)
  {
    PrunedManifestsAre(b.dst, b.src, cfg, b.src.now);
  }

  /** Neither the tail nor a prune undoes what the pass settled. */
  lemma FollowedKeeps(a: State, b: State, cfg: Settings, pruned: bool)
    requires Followed(a, b, cfg, pruned)
    ensures forall h | IsLatest(a.dst, h) :: IsLatest(b.dst, h)
    ensures CanPass(a, cfg) ==> CanPass(b, cfg)
    ensures Settled(a) ==> Settled(b)
    ensures InSync(a) ==> InSync(b)
    ensures pruned ==> PrunedManifests(b.dst.manifests, cfg, b.src.now) == b.dst.manifests
  {
    PrunedManifestsAgain(a.dst.manifests, cfg, a.src.now);
    forall h | IsLatest(a.dst, h) ensures IsLatest(b.dst, h) {
      MaxOfIs(a.dst.manifests.Keys, h);
    }
    hide PrunedManifests, Objects;
    if Settled(a) {
      var h :| IsLatest(a.dst, h) && h in a.src.hist
               && Objects(a.src.hist[a.src.head]) <= Objects(a.src.hist[h])
               && forall c | c in a.src.hist[a.src.head].checkpoints && Live(c, a.src.now) ::
                    c in a.src.hist[h].checkpoints;
      assert IsLatest(b.dst, h);
    }
  }

  /** The whole effect of a quiet round, told of the source and the target alone: the
      target reaches the source's head or a newer one; once the data is settled it
      reaches the very head and the source is left alone; in sync, the target only
      loses what a prune that is due takes. */
  ghost predicate QuietRound(a: State, b: State, cfg: Settings, due: bool) {
    && CanPass(b, cfg) && Settled(b) && b.writes <= a.writes + 2
    && (exists h :: IsLatest(b.dst, h) && a.src.head <= h)
    && (Settled(a) ==> b.src == a.src && InSync(b))
    && (InSync(a) ==>
          b.dst.manifests == if due then PrunedManifests(a.dst.manifests, cfg, a.src.now) else a.dst.manifests)
    && (!InSync(a) ==> PrunedManifests(b.dst.manifests, cfg, b.src.now) == b.dst.manifests)
  }

  lemma PassMakesRound(a: State, passed: State, b: State, cfg: Settings, previous: bool, o: PassOutcome, due: bool)
    requires Inv(a, cfg) && Inv(passed, cfg) && CanPass(a, cfg) && StepsForward(a, passed, cfg, previous, o)
    requires Settled(a) ==> passed.writes == a.writes
    requires Followed(passed, b, cfg, o.committed || due)
    ensures QuietRound(a, b, cfg, due)
    ensures o.committed <==> !InSync(a)
  {
    hide Inv, Settled, PrunedManifests, PinnedPass, Followed;
    StepSettles(a, passed, cfg, previous, o);
    FollowedKeeps(passed, b, cfg, o.committed || due);
    FollowedIs(passed, b, cfg, o.committed || due);
  }

  lemma FollowedIs(a: State, b: State, cfg: Settings, pruned: bool)
    requires Followed(a, b, cfg, pruned)
    ensures b.src == a.src && b.writes == a.writes
    ensures b.dst.manifests == if pruned then PrunedManifests(a.dst.manifests, cfg, a.src.now) else a.dst.manifests
  {
  }

  lemma RestMakesRound(a: State, b: State, cfg: Settings, due: bool)
    requires CanPass(a, cfg) && InSync(a) && Followed(a, b, cfg, due)
    ensures QuietRound(a, b, cfg, due)
  {
    FollowedKeeps(a, b, cfg, due);
    assert Settled(a);
  }

  lemma QuietPass(a: State, passed: State, b: State, cfg: Settings, previous: bool, o: PassOutcome, due: bool)
    requires Inv(a, cfg)
    ensures (CanPass(a, cfg) && Inv(passed, cfg) && StepsForward(a, passed, cfg, previous, o)
             && (Settled(a) ==> passed.writes == a.writes) && Followed(passed, b, cfg, o.committed || due)) ==>
              QuietRound(a, b, cfg, due) && (o.committed <==> !InSync(a))
  {
    if CanPass(a, cfg) && Inv(passed, cfg) && StepsForward(a, passed, cfg, previous, o)
       && (Settled(a) ==> passed.writes == a.writes) && Followed(passed, b, cfg, o.committed || due) {
      PassMakesRound(a, passed, b, cfg, previous, o, due);
    }
  }

  lemma QuietRest(a: State, b: State, cfg: Settings, due: bool)
    ensures Followed(a, b, cfg, cfg.keep.Some? && due) ==> b.src == a.src
    ensures CanPass(a, cfg) && InSync(a) && Followed(a, b, cfg, cfg.keep.Some? && due) ==> QuietRound(a, b, cfg, due)
  {
    if CanPass(a, cfg) && InSync(a) && Followed(a, b, cfg, cfg.keep.Some? && due) {
      RestMakesRound(a, b, cfg, due);
    }
  }

  /** The tail undoes nothing of a round. */
  lemma QuietTail(a: State, b: State, c: State, cfg: Settings, due: bool)
    ensures QuietRound(a, b, cfg, due) && OnlyTails(b, c) ==> QuietRound(a, c, cfg, due)
  {
    if QuietRound(a, b, cfg, due) && OnlyTails(b, c) {
      assert Followed(b, c, cfg, false);
      FollowedKeeps(b, c, cfg, false);
    }
  }

  class Mirroring {
    var idle: nat
    var watermark: Option<nat>
    var tail: Option<Tail>
    var lastPrune: nat
    /** Rounds since the last one that did something. */
    ghost var restful: nat

    constructor (w: Stores, poll: nat)
      ensures idle == poll && watermark.None? && tail.None? && lastPrune == w.st.src.now && restful == 0
    {
      idle := poll;
      watermark := None;
      tail := None;
      lastPrune := w.st.src.now;
      restful := 0;
    }

    ghost predicate Tailing(w: Stores)
      reads this, w, if tail.Some? then {tail.value} else {}
    {
      && (tail.Some? ==> Follows(w.st, w.cfg, tail.value.next))
      && (watermark.Some? <==> tail.Some?)
      && (watermark.Some? ==> IsLatest(w.st.dst, watermark.value))
    }

    /** Whether the last prune is long past. */
    predicate Due(w: Stores)
      reads this, w
    {
      w.st.src.now - lastPrune >= 600
    }

    /** The floor a pass gives the tail, which starts with the first one. */
    method FollowPass(w: Stores, o: PassOutcome) returns (ok: bool)
      requires w.Valid() && Passed(w.st, o)
      requires tail.Some? ==> Follows(w.st, w.cfg, tail.value.next)
      modifies this`tail, w, if tail.Some? then {tail.value} else {}
      ensures w.Valid() && Advances(old(w.st), w.st)
      ensures tail.Some? ==> Follows(w.st, w.cfg, tail.value.next)
      ensures ok <==> tail.Some?
      ensures tail != old(tail) ==> tail.Some? && fresh(tail.value)
      ensures IsLatest(w.st.dst, o.head)
      ensures old(w.Quiet()) ==> ok && w.Quiet() && OnlyTails(old(w.st), w.st)
    {
      hide Inv, Advances, Grows, EnvMoves, Follows, Passed, IsFloor, Solid, OnlyTails;
      ghost var passed := w.st;
      PassGivesFloor(w.st, o);
      PassMarks(w.st, o);
      match tail {
        case Some(t) =>
          t.AdvanceFloor(w, o.nextWal);
        case None =>
          var started := Tail.Start(w, o.nextWal);
          if started.Found? { tail := Some(started.value); }
      }
      GrowthAdvances(passed, w.st);
      MarkLasts(passed, w.st, o.head);
      return tail.Some?;
    }

    /** A pass, and the floor it gives the tail; then a prune if it committed
        anything or the last one is long past. */
    method PassRound(w: Stores)
      returns (failed: Option<MirrorError>, active: bool, ghost passed: State, ghost outcome: PassOutcome)
      requires w.Valid() && Tailing(w)
      modifies this, w, if tail.Some? then {tail.value} else {}
      ensures w.Valid() && Advances(old(w.st), w.st)
      ensures failed.None? ==> Tailing(w) && tail.Some? && watermark.Some?
      ensures tail.Some? ==> Follows(w.st, w.cfg, tail.value.next)
      ensures tail != old(tail) ==> tail.Some? && fresh(tail.value)
      ensures failed.Some? ==> !failed.value.Diverged?
      ensures idle == old(idle) && restful == old(restful)
      ensures old(Due(w)) && failed.None? ==> lastPrune >= old(w.st.src.now)
      ensures old(w.Quiet()) && CanPass(old(w.st), w.cfg) ==>
                && failed.None? && w.Quiet() && Inv(passed, w.cfg)
                && StepsForward(old(w.st), passed, w.cfg, w.pinsPrevious, outcome)
                && (Settled(old(w.st)) ==> passed.writes == old(w.st.writes))
                && active == outcome.committed && Followed(passed, w.st, w.cfg, outcome.committed || old(Due(w)))
    {
      hide Inv, Advances, Grows, Shrinks, EnvMoves, Follows, Passed, IsFloor, Exact, AllKnown, Between, Accounted;
      hide Solid, CarriedOut, StepsForward, Settled, CanPass, Pruned, Followed, OnlyTails, Later;
      ghost var start := w.st;
      outcome := PassOutcome(0, 0, false, 0, 0);
      var pass, _ := SyncPass(w);
      passed := w.st;
      PassedClock(start, passed, w.cfg, w.pinsPrevious);
      GrowthAdvances(start, w.st);
      if tail.Some? { FollowsLater(start, w.st, w.cfg, tail.value.next); }
      if pass.Fatal? { return Some(pass.error), false, passed, outcome; }
      outcome := pass.value;
      active := pass.value.committed;
      watermark := Some(pass.value.head);
      var ok := FollowPass(w, pass.value);
      AdvancesTrans(start, passed, w.st, w.cfg);
      TimeAdvances(passed, w.st);
      TailedOnce(passed, w.st, w.cfg);
      if !ok { return Some(StoreError), active, passed, outcome; }
      failed := None;
      if active || w.st.src.now - lastPrune >= IDLE_PRUNE_EVERY {
        ghost var before := w.st;
        failed := PruneRound(w);
        TimeAdvances(before, w.st);
        AdvancesTrans(start, before, w.st, w.cfg);
        PrunedOnce(passed, before, w.st, w.cfg);
      }
    }

    method PruneRound(w: Stores) returns (failed: Option<MirrorError>)
      requires w.Valid() && Tailing(w)
      modifies this`lastPrune, w
      ensures w.Valid() && Advances(old(w.st), w.st) && Tailing(w)
      ensures failed.Some? ==> failed.value.StoreError?
      ensures failed.None? ==> lastPrune == w.st.src.now
      ensures old(w.Quiet()) ==> failed.None? && w.Quiet()
      ensures old(w.Quiet()) && old(w.st.src).head in old(w.st.src).hist ==>
                w.st == old(w.st).(dst := Pruned(old(w.st.dst), old(w.st.src), w.cfg, old(w.st.src.now)))
    {
      hide Inv, Advances, Grows, Shrinks, EnvMoves, Follows, Passed, IsFloor, Exact, AllKnown, Between, Accounted;
      hide Solid, Backoff, CarriedOut, Pruned, Report;
      ghost var start := w.st;
      var report, _ := PruneNow(w);
      ShrinkingAdvances(start, w.st);
      if tail.Some? { FollowsThroughPrune(start, w.st, w.cfg, tail.value.next); }
      if watermark.Some? { MarkSurvives(start, w.st, watermark.value); }
      if !report.Found? { return Some(StoreError); }
      lastPrune := w.st.src.now;
      failed := None;
    }

    /** The first half of a round, after the LIST of the source: a pass unless the
        head is the watermark, else a prune if the last one is long past. */
    method HeadRound(w: Stores, head: Fetch<nat>) returns (failed: Option<MirrorError>, active: bool)
      requires w.Valid() && Tailing(w)
      modifies this, w, if tail.Some? then {tail.value} else {}
      ensures w.Valid() && Advances(old(w.st), w.st)
      ensures failed.None? ==> Tailing(w)
      ensures tail.Some? ==> Follows(w.st, w.cfg, tail.value.next)
      ensures failed.Some? ==> !failed.value.Diverged?
      ensures tail != old(tail) ==> tail.Some? && fresh(tail.value)
      ensures idle == old(idle) && restful == old(restful)
      ensures old(Due(w)) && failed.None? && w.cfg.keep.Some? ==> lastPrune >= old(w.st.src.now)
      ensures (old(w.Quiet()) && CanPass(old(w.st), w.cfg) && head == Found(old(w.st.src.head))) ==>
                && failed.None? && w.Quiet() && tail.Some? && QuietRound(old(w.st), w.st, w.cfg, old(Due(w)))
                && (active <==> !InSync(old(w.st)))
                && (InSync(old(w.st)) && old(tail.Some?) ==>
                      tail == old(tail) && tail.value.next == old(tail.value.next) && w.st.src == old(w.st.src))
    {
      hide Inv, Advances, Grows, Shrinks, EnvMoves, Follows, Followed, OnlyTails, Later, Pruned, PrunedManifests;
      hide StepsForward, Settled, CanPass, QuietRound, InSync;
      ghost var start := w.st;
      NothingFollowed(start, w.cfg);
      HeadOfSource(start, w.cfg, watermark);
      failed, active := None, false;
      if head.Found? && Some(head.value) != watermark {
        ghost var passed, outcome;
        failed, active, passed, outcome := PassRound(w);
        QuietPass(start, passed, w.st, w.cfg, w.pinsPrevious, outcome, old(Due(w)));
      } else {
        StillAdvances(start, w.cfg);
        if w.cfg.keep.Some? && w.st.src.now - lastPrune >= IDLE_PRUNE_EVERY {
          failed := PruneRound(w);
          TimeAdvances(start, w.st);
          PrunedOnce(start, start, w.st, w.cfg);
        }
        QuietRest(start, w.st, w.cfg, old(Due(w)));
      }
    }

    /** The second half of a round: the tail copies what is there. */
    method TailRound(w: Stores) returns (copied: Fetch<nat>)
      requires w.Valid() && Tailing(w) && tail.Some?
      modifies w, tail.value
      ensures w.Valid() && Advances(old(w.st), w.st) && Tailing(w) && !copied.Missing?
      ensures old(w.Quiet()) ==> copied.Found? && w.Quiet() && OnlyTails(old(w.st), w.st)
      ensures old(w.Quiet()) ==> (copied.value > 0 <==> Wal(old(tail.value.next)) in old(w.st.src.objs))
    {
      hide Inv, Advances, Grows, Follows, OnlyTails;
      ghost var before := w.st;
      copied := tail.value.Step(w);
      GrowthAdvances(before, w.st);
      if watermark.Some? { MarkLasts(before, w.st, watermark.value); }
    }

    /** One turn of the loop. */
    method Round(w: Stores, poll: nat) returns (failed: Option<MirrorError>)
      requires w.Valid() && Tailing(w) && idle == Backoff(poll, restful)
      modifies this, w, if tail.Some? then {tail.value} else {}
      ensures w.Valid() && Advances(old(w.st), w.st) && idle == Backoff(poll, restful)
      ensures failed.None? ==> Tailing(w)
      ensures tail.Some? ==> Follows(w.st, w.cfg, tail.value.next)
      ensures failed.Some? ==> !failed.value.Diverged?
      ensures tail != old(tail) ==> tail.Some? && fresh(tail.value)
      ensures old(Due(w)) && failed.None? && w.cfg.keep.Some? ==> lastPrune >= old(w.st.src.now)
      ensures old(w.Quiet()) && CanPass(old(w.st), w.cfg) ==>
                failed.None? && w.Quiet() && tail.Some? && QuietRound(old(w.st), w.st, w.cfg, old(Due(w)))
      ensures old(w.Quiet()) && CanPass(old(w.st), w.cfg) && !InSync(old(w.st)) ==> idle == poll
      ensures old(w.Quiet()) && CanPass(old(w.st), w.cfg) && InSync(old(w.st)) && old(tail.Some?) ==>
                idle == if Wal(old(tail.value.next)) in old(w.st.src.objs) then poll
                        else Min(old(idle) * 2, Max(300, poll))
    {
      hide Inv, Advances, Grows, EnvMoves, Follows, OnlyTails, Later, Settled, CanPass, QuietRound, InSync, Backoff;
      hide IsLatest, Born, Followed, Solid, Objects;
      ghost var start := w.st;
      var head := SourceHeadId(w);
      Drifts(start, w.st, w.cfg);
      if tail.Some? { FollowsLater(start, w.st, w.cfg, tail.value.next); }
      if watermark.Some? { MarkDrifts(start, w.st, watermark.value); }
      TimeAdvances(start, w.st);
      HeadOfSource(start, w.cfg, watermark);
      if head.Failed? { return Some(StoreError); }
      ghost var seen := w.st;
      var active;
      failed, active := HeadRound(w, head);
      AdvancesTrans(start, seen, w.st, w.cfg);
      if failed.Some? { return; }
      if tail.Some? {
        ghost var before := w.st;
        var copied := TailRound(w);
        AdvancesTrans(start, before, w.st, w.cfg);
        QuietTail(start, before, w.st, w.cfg, old(Due(w)));
        if copied.Failed? { return Some(StoreError); }
        active := active || copied.value > 0;
      }
      Waits(poll, restful);
      idle := if active then poll else Min(idle * 2, Max(IDLE_POLL_MAX, poll));
      restful := if active then 0 else restful + 1;
    }
  }

  lemma Drifts(a: State, b: State, cfg: Settings)
    requires Inv(a, cfg) && EnvMoves(a, b)
    ensures Grows(a, b) && Advances(a, b)
  {
    GrowthAdvances(a, b);
  }

  lemma Waits(poll: nat, k: nat)
    ensures Backoff(poll, 0) == poll
    ensures Backoff(poll, k + 1) == Min(Backoff(poll, k) * 2, Max(IDLE_POLL_MAX, poll))
  {
  }

  /** The target has reached manifest `n`. */
  ghost predicate Reached(st: State, n: nat) {
    exists h :: IsLatest(st.dst, h) && n <= h
  }

  lemma RoundReaches(a: State, b: State, cfg: Settings)
    ensures forall due: bool | QuietRound(a, b, cfg, due) :: Reached(b, a.src.head)
  {
  }

  lemma ReachesOn(n: nat, a: State, b: State)
    requires Advances(a, b)
    ensures Reached(a, n) ==> Reached(b, n)
  {
    if Reached(a, n) {
      var h :| IsLatest(a.dst, h) && n <= h;
      var k :| IsLatest(b.dst, k) && h <= k;
    }
  }

  /** `run_continuous`: rounds until cancelled, which here is after `rounds` of them,
      or until one fails. However it ends, and so wherever it is cut off, the
      contract holds and the tail has left no gap. */
  method RunContinuous(w: Stores, poll: nat, rounds: nat) returns (ending: Ending, idle: nat, tail: Option<Tail>)
    requires w.Valid()
    modifies w
    ensures w.Valid() && Advances(old(w.st), w.st)
    ensures poll <= idle <= Max(IDLE_POLL_MAX, poll)
    ensures ending.Died? ==> !ending.error.Diverged?
    ensures tail.Some? && !w.cfg.copier.External? ==> NoGap(w.st, tail.value.next)
    ensures old(w.Quiet()) && CanPass(old(w.st), w.cfg) ==> ending.Cancelled?
    ensures old(w.Quiet()) && CanPass(old(w.st), w.cfg) && rounds >= 1 ==>
              tail.Some? && exists h :: IsLatest(w.st.dst, h) && old(w.st.src.head) <= h
    ensures old(w.Quiet()) && CanPass(old(w.st), w.cfg) && rounds >= 2 ==> InSync(w.st)
  {
    hide Inv, Advances, Follows, NoGap, Backoff, CanPass, Settled, InSync;
    var m := new Mirroring(w, poll);
    StillAdvances(w.st, w.cfg);
    Waits(poll, 0);
    for k := 0 to rounds
      invariant w.Valid() && Advances(old(w.st), w.st) && m.Tailing(w) && fresh(m)
      invariant old(w.Quiet()) && CanPass(old(w.st), w.cfg) ==> w.Quiet() && CanPass(w.st, w.cfg)
      invariant k == 0 ==> w.st == old(w.st)
      invariant old(w.Quiet()) && CanPass(old(w.st), w.cfg) && k >= 1 ==>
                  Settled(w.st) && m.tail.Some? && Reached(w.st, old(w.st.src.head))
      invariant old(w.Quiet()) && CanPass(old(w.st), w.cfg) && k >= 2 ==> InSync(w.st)
      invariant m.tail.Some? ==> fresh(m.tail.value)
      invariant m.idle == Backoff(poll, m.restful)
    {
      ghost var before := w.st;
      var failed := m.Round(w, poll);
      AdvancesTrans(old(w.st), before, w.st, w.cfg);
      if k == 0 {
        RoundReaches(before, w.st, w.cfg);
      } else {
        ReachesOn(old(w.st.src.head), before, w.st);
      }
      if failed.Some? {
        if m.tail.Some? && !w.cfg.copier.External? { FollowingHasNoGap(w.st, w.cfg, m.tail.value.next); }
        return Died(failed.value), m.idle, m.tail;
      }
    }
    if m.tail.Some? && !w.cfg.copier.External? { FollowingHasNoGap(w.st, w.cfg, m.tail.value.next); }
    return Cancelled, m.idle, m.tail;
  }

  /** Any number of task lives, each ending in a crash, an error or a cancellation:
      at the end of every one, and so throughout, the latest manifest is complete and
      every promised restore point opens. */
  method RunLives(w: Stores, poll: nat, lives: seq<nat>)
    requires w.Valid()
    modifies w
    ensures w.Valid() && Advances(old(w.st), w.st)
    ensures Complete(w.st)
    ensures forall r | Promised(w.st, w.cfg, r) :: r in w.st.src.hist
              && forall p | p in Members(w.st.src.hist[r], w.st.src.now) :: PresentWhole(w.st, p)
  {
    hide Inv, Advances, Complete, Promised, PresentWhole, Members;
    StillAdvances(w.st, w.cfg);
    for k := 0 to |lives|
      invariant w.Valid() && Advances(old(w.st), w.st)
    {
      ghost var before := w.st;
      w.Restart();
      var _, _, _ := RunContinuous(w, poll, lives[k]);
      AdvancesTrans(old(w.st), before, w.st, w.cfg);
    }
    InvIsComplete(w.st, w.cfg);
    forall r | Promised(w.st, w.cfg, r)
      ensures r in w.st.src.hist
              && forall p | p in Members(w.st.src.hist[r], w.st.src.now) :: PresentWhole(w.st, p)
    {
      PromisedPointOpens(w.st, w.cfg, r);
    }
  }
}
