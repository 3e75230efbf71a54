/** The WAL tail (src/mirror/pass.rs): between passes, copy WAL files in ascending
    id order as they appear at the source. */
module WalTail {
  import opened Wrappers
  import opened Layout
  import opened SourceDb
  import opened MirrorState
  import opened World
  import opened Pass

  /** The tail has no gap: every WAL file above what the target's latest manifest
      replays and below `next` is at the target. */
  ghost predicate NoGap(st: State, next: nat) {
    Solid(st, next)
  }

  /** The tail stands within what is known to be solid. Nothing is claimed of an
      outside replicator's deliveries. */
  ghost predicate Follows(st: State, cfg: Settings, next: nat) {
    st.dst.manifests != map[] && (cfg.copier.External? || next <= st.frontier)
  }

  lemma FollowingHasNoGap(st: State, cfg: Settings, next: nat)
    requires Inv(st, cfg) && Follows(st, cfg, next) && !cfg.copier.External?
    ensures NoGap(st, next)
  {
  }

  lemma FollowsLater(a: State, b: State, cfg: Settings, next: nat)
    requires Follows(a, cfg, next) && Grows(a, b)
    ensures Follows(b, cfg, next)
  {
    var h :| h in a.dst.manifests;
    assert h in b.dst.manifests;
  }

  /** `floor` is the `next_wal_sst_id` of the target's latest manifest, and no pass
      has staged WAL files of a newer head. */
  ghost predicate IsFloor(st: State, floor: nat) {
    exists h | IsLatest(st.dst, h) && h in st.src.hist ::
      st.src.hist[h].nextWal == floor && (st.adopted.Some? ==> st.adopted.value <= h)
  }

  lemma PassGivesFloor(st: State, o: PassOutcome)
    requires Passed(st, o)
    ensures IsFloor(st, o.nextWal) && st.dst.manifests != map[]
  {
  }

  lemma FloorStable(a: State, b: State, floor: nat)
    requires IsFloor(a, floor) && EnvMoves(a, b)
    ensures IsFloor(b, floor) && b.dst.manifests != map[]
  {
    var h :| IsLatest(a.dst, h) && h in a.src.hist && a.src.hist[h].nextWal == floor
             && (a.adopted.Some? ==> a.adopted.value <= h);
    assert IsLatest(b.dst, h) && b.src.hist[h] == a.src.hist[h];
  }

  /** Below the floor the latest manifest's own window is present. */
  lemma WindowPresent(st: State, cfg: Settings, floor: nat, h: nat, w: nat)
    requires Inv(st, cfg) && IsFloor(st, floor) && IsLatest(st.dst, h) && h in st.src.hist
    requires st.src.hist[h].replayAfter < w < floor
    ensures Wal(w) in st.dst.objs
  {
    assert Held(st, h);
    assert Wal(w) in WalWindow(st.src.hist[h].replayAfter, st.src.hist[h].nextWal);
  }

  /** The highest WAL file at the target above the floor was put there by a tail, so
      everything up to it is there. */
  lemma StartIsSolid(st: State, cfg: Settings, floor: nat, next: nat)
    requires Inv(st, cfg) && IsFloor(st, floor) && !cfg.copier.External?
    requires next == floor || (next > floor && Wal(next - 1) in st.dst.objs)
    ensures Solid(st, next)
  {
    forall h: nat, w: nat | IsLatest(st.dst, h) && h in st.src.hist
        && st.src.hist[h].replayAfter < w < next
      ensures Wal(w) in st.dst.objs
    {
      if w < floor {
        WindowPresent(st, cfg, floor, h, w);
      } else {
        assert Explained(st, Wal(next - 1));
        if st.adopted.Some? {
          assert Ordered(st.src.hist, st.adopted.value, h);
        }
      }
    }
  }

  lemma FloorIsSolid(st: State, cfg: Settings, floor: nat, next: nat)
    requires Inv(st, cfg) && IsFloor(st, floor) && (next <= st.frontier || next <= floor)
    ensures Solid(st, next)
  {
    forall h: nat, w: nat | IsLatest(st.dst, h) && h in st.src.hist
        && st.src.hist[h].replayAfter < w < next
      ensures Wal(w) in st.dst.objs
    {
      if w < floor {
        WindowPresent(st, cfg, floor, h, w);
      }
    }
  }

  /** The WAL files a listing names. */
  function WalIds(listing: set<DataObject>): set<nat> {
    set o | o in listing && o.Wal? :: o.id
  }

  /** What tailing changes: data objects at the target, and how far it has got. */
  ghost predicate OnlyTails(a: State, b: State) {
    && b.src == a.src && b.dst.manifests == a.dst.manifests && b.heads == a.heads
    && b.adopted == a.adopted && b.writes == a.writes && b.pins == a.pins
  }

  class Tail {
    /** The next WAL id to probe for. */
    var next: nat

    constructor (next: nat)
      ensures this.next == next
    {
      this.next := next;
    }

    /** Start at the target's current WAL head: one LIST, floored by the last pass. */
    static method Start(w: Stores, floor: nat) returns (r: Fetch<Tail>)
      requires w.Valid() && IsFloor(w.st, floor)
      modifies w
      ensures w.Valid() && Grows(old(w.st), w.st) && !r.Missing?
      ensures r.Found? ==> fresh(r.value) && Follows(w.st, w.cfg, r.value.next) && r.value.next >= floor
      ensures r.Found? ==> forall o | o in w.st.dst.objs && o.Wal? :: o.id < r.value.next
      ensures r.Found? ==> r.value.next == floor || Wal(r.value.next - 1) in w.st.dst.objs
      ensures w.st.dst.manifests == old(w.st.dst.manifests)
      ensures old(w.Quiet()) ==> r.Found? && w.Quiet() && OnlyTails(old(w.st), w.st)
    {
      hide Inv, NewPinsAreNew, NoRevival, Solid, IsFloor, Grows, EnvMoves;
      ghost var start := w.st;
      var listing := w.ListTargetObjects();
      EnvIsGrowth(start, w.st);
      FloorStable(start, w.st, floor);
      if !listing.Found? { return Failed; }
      var ids := WalIds(listing.value.Keys);
      var next := if ids == {} then floor else Max(MaxOf(ids) + 1, floor);
      StartPoint(w.st, w.cfg, floor, ids, next);
      if !w.cfg.copier.External? {
        ghost var mid := w.st;
        StartIsSolid(w.st, w.cfg, floor, next);
        w.RaiseFrontier(next);
        GrowsTrans(start, mid, w.st, w.cfg);
      }
      var tail := new Tail(next);
      StartFollows(w.st, w.cfg, next);
      return Found(tail);
    }

    /** Raise the floor after a pass. */
    method AdvanceFloor(w: Stores, floor: nat)
      requires w.Valid() && IsFloor(w.st, floor) && Follows(w.st, w.cfg, next)
      modifies this, w
      ensures w.Valid() && Grows(old(w.st), w.st)
      ensures next == Max(old(next), floor) && Follows(w.st, w.cfg, next)
      ensures OnlyTails(old(w.st), w.st) && (w.Quiet() <==> old(w.Quiet()))
    {
      NothingMoved(w.st, w.cfg);
      if !w.cfg.copier.External? {
        FloorIsSolid(w.st, w.cfg, floor, Max(next, floor));
        w.RaiseFrontier(Max(next, floor));
      }
      next := Max(next, floor);
    }

    /** Copy every WAL file available at the source, in id order. `Found` carries how
        many were copied: zero means the tail has caught up. */
    method Step(w: Stores) returns (r: Fetch<nat>)
      requires w.Valid() && Follows(w.st, w.cfg, next)
      modifies this, w
      ensures w.Valid() && Grows(old(w.st), w.st) && Follows(w.st, w.cfg, next) && !r.Missing?
      ensures w.st.dst.manifests == old(w.st.dst.manifests) && w.st.heads == old(w.st.heads)
      ensures next >= old(next)
      ensures r.Found? ==> next == old(next) + r.value && Wal(next) !in w.st.src.objs
      ensures forall v | old(next) <= v < next :: Wal(v) in w.st.dst.objs
      ensures old(w.Quiet()) ==> r.Found? && w.Quiet() && OnlyTails(old(w.st), w.st)
      ensures old(w.Quiet()) ==> (r.value > 0 <==> Wal(old(next)) in old(w.st.src.objs))
    {
      hide Inv, Later, Explained, Solid, Grows, EnvMoves, Follows;
      var copied: nat := 0;
      ghost var start := w.st;
      NothingMoved(w.st, w.cfg);
      while true
        invariant w.Valid() && Grows(start, w.st) && Follows(w.st, w.cfg, next)
        invariant w.st.dst.manifests == start.dst.manifests && w.st.heads == start.heads
        invariant next == old(next) + copied
        invariant copied <= next && forall v | next - copied <= v < next :: Wal(v) in w.st.dst.objs
        invariant old(w.Quiet()) ==> w.Quiet() && OnlyTails(start, w.st)
        invariant old(w.Quiet()) && copied > 0 ==> Wal(old(next)) in start.src.objs
        decreases |w.turns|, |Ahead(w.st.src.objs, next)|
      {
        ghost var before, turns := w.st, w.turns;
        var got := w.GetSourceObject(Wal(next));
        EnvIsGrowth(before, w.st);
        GrowsTrans(start, before, w.st, w.cfg);
        FollowsLater(before, w.st, w.cfg, next);
        if got.Missing? { return Found(copied); }
        if got.Failed? { return Failed; }
        ghost var mid := w.st;
        var ok := w.PutTailed(next);
        GrowsTrans(start, mid, w.st, w.cfg);
        FollowsLater(mid, w.st, w.cfg, next);
        if !ok { return Failed; }
        FollowsOn(w.st, w.cfg, next);
        AheadShrinks(mid.src.objs, next);
        next := next + 1;
        copied := copied + 1;
      }
    }
  }

  lemma FollowsOn(st: State, cfg: Settings, next: nat)
    requires Follows(st, cfg, next) && (cfg.copier.External? || next < st.frontier)
    ensures Follows(st, cfg, next + 1)
  {
  }

  function Ahead(objs: set<DataObject>, next: nat): set<DataObject> {
    set o | o in objs && o.Wal? && o.id >= next
  }

  lemma AheadShrinks(objs: set<DataObject>, next: nat)
    requires Wal(next) in objs
    ensures |Ahead(objs, next + 1)| < |Ahead(objs, next)|
  {
    assert Ahead(objs, next + 1) == Ahead(objs, next) - {Wal(next)};
  }

  lemma StartPoint(st: State, cfg: Settings, floor: nat, ids: set<nat>, next: nat)
    requires ids == WalIds(st.dst.objs.Keys)
    requires next == if ids == {} then floor else Max(MaxOf(ids) + 1, floor)
    ensures forall o | o in st.dst.objs && o.Wal? :: o.id < next
    ensures next == floor || (next > floor && Wal(next - 1) in st.dst.objs)
    ensures next >= floor
  {
    forall o | o in st.dst.objs && o.Wal? ensures o.id < next {
      assert o.id in ids;
    }
  }

  lemma StartFollows(st: State, cfg: Settings, next: nat)
    requires st.dst.manifests != map[] && (cfg.copier.External? || next <= st.frontier)
    ensures Follows(st, cfg, next)
  {
  }
}
