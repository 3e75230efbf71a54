/** Restore-point retention (src/mirror/prune.rs): the only deletion that runs
    against a target. */
module Prune {
  import opened Wrappers
  import opened Layout
  import opened SourceDb
  import opened MirrorState
  import opened World
  import opened Pass

  datatype PruneReport = PruneReport(
    keptManifests: nat, deletedManifests: nat, deletedObjects: nat, dataDeletionRan: bool)

  const NOTHING_PRUNED := PruneReport(0, 0, 0, false)

  /* What pruning keeps, as functions of what is at the target. */

  /** The latest manifest and every manifest younger than `keep`. */
  function RestorePoints(ms: map<nat, Stored>, keep: nat, now: int): set<nat> {
    set i | i in ms && ((forall j | j in ms :: j <= i) || now - ms[i].modified < keep)
  }

  /** The manifests at the target that live entries of restore points pin. */
  function Support(ms: map<nat, Stored>, points: set<nat>, now: nat): set<nat> {
    set i, c | i in points && i in ms && c in ms[i].body.checkpoints && Live(c, now)
               && c.manifestId in ms :: c.manifestId
  }

  function Kept(ms: map<nat, Stored>, keep: nat, now: nat): set<nat> {
    var points := RestorePoints(ms, keep, now);
    points + Support(ms, points, now)
  }

  function KeptObjects(ms: map<nat, Stored>, kept: set<nat>): set<DataObject> {
    set i, o | i in kept && i in ms && o in Objects(ms[i].body) :: o
  }

  /** The oldest creation time among the checkpoints with the pin's name, less the
      clock slack. */
  function PinFloor(cs: seq<Checkpoint>, name: string, minAge: nat): (f: Option<int>)
    ensures f.None? <==> forall c | c in cs :: c.name != name
    ensures f.Some? ==> exists c | c in cs :: c.name == name && c.created - minAge == f.value
    ensures f.Some? ==> forall c | c in cs && c.name == name :: f.value <= c.created - minAge
  {
    if cs == [] then None
    else
      var before := PinFloor(cs[..|cs| - 1], name, minAge);
      var c := cs[|cs| - 1];
      assert forall x | x in cs :: x == c || x in cs[..|cs| - 1];
      if c.name != name then before
      else if before.None? then Some(c.created - minAge)
      else Some(Min(before.value, c.created - minAge))
  }

  /** Too young to delete, or no older than the oldest pin. */
  predicate Guarded(modified: int, now: int, minAge: nat, floor: Option<int>) {
    now - modified <= minAge || (floor.Some? && modified >= floor.value)
  }

  /** The pruner's inputs for one run, as it reads them. */
  datatype Guards = Guards(
    kept: set<DataObject>, spared: set<DataObject>, tailFloor: nat, now: int, minAge: nat,
    floor: Option<int>)

  predicate Stays(g: Guards, o: DataObject, modified: int) {
    || (o.Wal? && o.id >= g.tailFloor)
    || o in g.kept || o in g.spared || Guarded(modified, g.now, g.minAge, g.floor)
  }

  /** The source's latest closure, expired entries included. */
  function SparedBy(s: Source): set<DataObject>
    requires s.head in s.hist
  {
    Objects(s.hist[s.head])
    + set c, o | c in s.hist[s.head].checkpoints && c.manifestId in s.live && c.manifestId in s.hist
                 && o in Objects(s.hist[c.manifestId]) :: o
  }

  function GuardsFor(ms: map<nat, Stored>, s: Source, cfg: Settings, now: nat): Guards
    requires cfg.keep.Some? && ms != map[] && s.head in s.hist
  {
    Guards(KeptObjects(ms, Kept(ms, cfg.keep.value, now)), SparedBy(s),
           ms[MaxOf(ms.Keys)].body.nextWal, now, cfg.minAge,
           PinFloor(s.hist[s.head].checkpoints, cfg.pinName, cfg.minAge))
  }

  function Remaining(objs: map<DataObject, nat>, g: Guards): map<DataObject, nat> {
    map o | o in objs && Stays(g, o, objs[o]) :: objs[o]
  }

  function OnlyKept(ms: map<nat, Stored>, kept: set<nat>): map<nat, Stored> {
    map i | i in ms && i in kept :: ms[i]
  }

  /** The target after an undisturbed prune at time `now`. */
  function Pruned(t: Target, s: Source, cfg: Settings, now: nat): Target
    requires s.head in s.hist
  {
    if cfg.keep.None? || t.manifests == map[] then t
    else Target(OnlyKept(t.manifests, Kept(t.manifests, cfg.keep.value, now)),
                Remaining(t.objs, GuardsFor(t.manifests, s, cfg, now)))
  }

  /* Why what pruning keeps is enough. */

  /** `kept` covers everything the contract will ever ask of the manifests here. */
  ghost predicate Covers(st: State, cfg: Settings, kept: set<nat>) {
    && (forall h | IsLatest(st.dst, h) && h in st.src.hist :: h in kept
          && forall c | c in st.src.hist[h].checkpoints && StillListed(st.src, c) :: c.manifestId in kept)
    && (forall r | r in st.heads && Promised(st, cfg, r) && r in st.src.hist ::
          r in kept && LivePins(st.src.hist[r], st.src.now) <= kept)
  }

  lemma KeptCovers(st: State, cfg: Settings, now: nat)
    requires Inv(st, cfg) && cfg.keep.Some? && now <= st.src.now
    ensures Covers(st, cfg, Kept(st.dst.manifests, cfg.keep.value, now))
  {
    var ms := st.dst.manifests;
    var points := RestorePoints(ms, cfg.keep.value, now);
    var kept := Kept(ms, cfg.keep.value, now);
    forall h | IsLatest(st.dst, h) && h in st.src.hist
      ensures h in kept
      ensures forall c | c in st.src.hist[h].checkpoints && StillListed(st.src, c) :: c.manifestId in kept
    {
      assert Held(st, h) && h in points;
      forall c | c in st.src.hist[h].checkpoints && StillListed(st.src, c)
        ensures c.manifestId in kept
      {
        assert c in ms[h].body.checkpoints && Live(c, now) && c.manifestId in ms;
      }
    }
    forall r | r in st.heads && Promised(st, cfg, r) && r in st.src.hist
      ensures r in kept && LivePins(st.src.hist[r], st.src.now) <= kept
    {
      PromisedKept(st, cfg, now, r);
    }
  }

  lemma PromisedKept(st: State, cfg: Settings, now: nat, r: nat)
    requires Inv(st, cfg) && cfg.keep.Some? && now <= st.src.now
    requires r in st.heads && Promised(st, cfg, r) && r in st.src.hist
    ensures r in Kept(st.dst.manifests, cfg.keep.value, now)
    ensures LivePins(st.src.hist[r], st.src.now) <= Kept(st.dst.manifests, cfg.keep.value, now)
  {
    var ms := st.dst.manifests;
    var points := RestorePoints(ms, cfg.keep.value, now);
    assert PointOpen(st, cfg, r) && Held(st, r);
    assert r in points;
    forall p | p in LivePins(st.src.hist[r], st.src.now)
      ensures p in Support(ms, points, now)
    {
      var c :| c in st.src.hist[r].checkpoints && Live(c, st.src.now) && c.manifestId == p;
      assert c in ms[r].body.checkpoints && Live(c, now) && p in ms;
    }
  }

  /** A manifest that is not kept may go. */
  lemma UnkeptIsSafe(st: State, cfg: Settings, kept: set<nat>, id: nat)
    requires Inv(st, cfg) && Covers(st, cfg, kept) && id !in kept && st.dst.manifests != map[]
    ensures SafeToDrop(st, cfg, id)
  {
    var h := MaxOf(st.dst.manifests.Keys);
    assert IsLatest(st.dst, h) && Held(st, h) && Held(st, id);
    forall i, c | i in st.dst.manifests && i in st.src.hist && c in st.src.hist[i].checkpoints
                  && StillListed(st.src, c)
      ensures c.manifestId != id
    {
      ListedByLatest(st, cfg, i, h, c);
    }
  }

  /** What an older manifest still needs, the latest one needs too. */
  lemma ListedByLatest(st: State, cfg: Settings, i: nat, h: nat, c: Checkpoint)
    requires Inv(st, cfg) && i in st.src.hist && h in st.src.hist && i <= h
    requires c in st.src.hist[i].checkpoints && StillListed(st.src, c)
    ensures exists d | d in st.src.hist[h].checkpoints :: StillListed(st.src, d) && d.manifestId == c.manifestId
  {
    var s := st.src;
    IdsMember(s.hist[i], c);
    assert Sound(s, h);
    ListedBetween(s, i, h, s.head, c.id);
    var d :| d in s.hist[h].checkpoints && d.id == c.id;
    assert Ordered(s.hist, i, h) && SameCheckpoint(c, d);
  }

  lemma CoversStable(a: State, b: State, cfg: Settings, kept: set<nat>)
    requires Inv(a, cfg) && Inv(b, cfg) && Shrinks(a, b) && Covers(a, cfg, kept)
    requires a.dst.manifests != map[] && b.dst.manifests != map[]
    ensures Covers(b, cfg, kept)
  {
    var h := MaxOf(a.dst.manifests.Keys);
    assert IsLatest(a.dst, h) && Held(a, h);
    assert forall k | IsLatest(b.dst, k) :: k == h;
    forall c | c in b.src.hist[h].checkpoints && StillListed(b.src, c)
      ensures c.manifestId in kept
    {
      assert Sound(a.src, h);
      IdsMember(b.src.hist[h], c);
      ListedBetween(b.src, h, a.src.head, b.src.head, c.id);
      assert StillListed(a.src, c);
    }
    forall r | r in b.heads && Promised(b, cfg, r) && r in b.src.hist
      ensures r in kept && LivePins(b.src.hist[r], b.src.now) <= kept
    {
      assert PointOpen(a, cfg, r) && Promised(a, cfg, r);
      LivePinsShrink(b.src.hist[r], a.src.now, b.src.now);
    }
  }

  /** With only kept manifests left, an object none of them references and below
      the tail is needed by nothing. */
  lemma {:induction false} UnkeptIsUnneeded(st: State, cfg: Settings, g: Guards, o: DataObject)
    requires Inv(st, cfg) && st.dst.manifests != map[]
    requires forall i | i in st.dst.manifests :: Objects(st.dst.manifests[i].body) <= g.kept
    requires forall h | IsLatest(st.dst, h) :: g.tailFloor == st.dst.manifests[h].body.nextWal
    requires o !in g.kept && (o.Wal? ==> o.id < g.tailFloor)
    ensures Unneeded(st, o)
  {
    forall i | i in st.dst.manifests && i in st.src.hist
      ensures o !in Objects(st.src.hist[i])
    {
      assert Held(st, i);
    }
    forall h | IsLatest(st.dst, h) && h in st.src.hist && o.Wal?
      ensures o.id < st.src.hist[h].nextWal
    {
      assert Held(st, h);
    }
  }

  /* Guard 1. */

  /** No entry for checkpoint `c` lives in the source's latest manifest. */
  ghost predicate Dead(s: Source, c: Checkpoint) {
    s.head in s.hist && forall d | d in s.hist[s.head].checkpoints && d.id == c.id :: !Live(d, s.now)
  }

  /** `spared` has the latest manifest's objects as read in `a`, and by `b` those of
      every manifest its entries pin, unless the checkpoint had died. */
  ghost predicate Spares(a: Source, b: Source, spared: set<DataObject>) {
    && a.head in a.hist && Later(a, b) && Objects(a.hist[a.head]) <= spared
    && forall c | c in a.hist[a.head].checkpoints && c.manifestId in b.hist ::
         Objects(b.hist[c.manifestId]) <= spared || Dead(b, c)
  }

  lemma GoneMeansDead(a: Source, s: Source, c: Checkpoint)
    requires SourceOk(a) && SourceOk(s) && Later(a, s) && Born(a) && a.head in a.hist
    requires c in a.hist[a.head].checkpoints && c.manifestId !in s.live
    ensures Dead(s, c)
  {
    forall d | d in s.hist[s.head].checkpoints && d.id == c.id
      ensures !Live(d, s.now)
    {
      assert Ordered(s.hist, a.head, s.head);
    }
  }

  lemma DeadStays(a: Source, s: Source, t: Source, c: Checkpoint)
    requires SourceOk(a) && SourceOk(s) && SourceOk(t) && Later(a, s) && Later(s, t)
    requires Born(a) && a.head in a.hist && c in a.hist[a.head].checkpoints && Dead(s, c)
    ensures Dead(t, c)
  {
    LaterTrans(a, s, t);
    forall d | d in t.hist[t.head].checkpoints && d.id == c.id
      ensures !Live(d, t.now)
    {
      IdsMember(a.hist[a.head], c);
      IdsMember(t.hist[t.head], d);
      ListedBetween(t, a.head, s.head, t.head, c.id);
      var e :| e in s.hist[s.head].checkpoints && e.id == c.id;
      assert NoRevival(s, t);
    }
  }

  ghost predicate InLiveClosure(s: Source, o: DataObject) {
    Born(s) && s.head in s.hist
    && exists k | k in Members(s.hist[s.head], s.now) && k in s.hist :: o in Objects(s.hist[k])
  }

  /** An object that was known by `a` cannot return once dropped. */
  predicate Known(a: Source, o: DataObject) {
    match o
    case Compacted(_) => Referenced(a, o)
    case Wal(w) => a.head in a.hist && w < a.hist[a.head].nextWal
  }

  lemma KnownObject(a: Source, s: Source, k: nat, o: DataObject)
    requires SourceOk(a) && SourceOk(s) && Later(a, s) && Born(a) && a.head in a.hist
    requires k in s.hist && a.head <= k && o in Objects(s.hist[k]) && Known(a, o)
    ensures o in Objects(a.hist[a.head])
  {
    match o
    case Wal(w) => assert Ordered(s.hist, a.head, k);
    case Compacted(_) =>
      var i :| i in a.hist && o in Objects(a.hist[i]);
      assert Sound(a, i) && Convex(s.hist, i, a.head, k);
  }

  /** Guard 1 is exact: an object known when the source was read and not spared is
      in the closure of no head the source ever has after the read. */
  lemma GuardIsExact(a: Source, b: Source, spared: set<DataObject>, s: Source, o: DataObject)
    requires SourceOk(a) && SourceOk(b) && SourceOk(s) && Later(b, s) && Spares(a, b, spared) && Born(a)
    requires Known(a, o) && o !in spared
    ensures !InLiveClosure(s, o)
  {
    LaterTrans(a, b, s);
    forall k | k in Members(s.hist[s.head], s.now) && k in s.hist
      ensures o !in Objects(s.hist[k])
    {
      if o in Objects(s.hist[k]) {
        if a.head <= k {
          KnownObject(a, s, k, o);
        } else {
          OldPinSpared(a, b, spared, s, k);
        }
        assert false;
      }
    }
  }

  /** Between the read of the head and the last read of a pin, such an object can be in
      a closure only through a checkpoint that is gone by the end of the reads. */
  lemma GuardWhileReading(a: Source, b: Source, spared: set<DataObject>, s: Source, o: DataObject)
    requires SourceOk(a) && SourceOk(b) && SourceOk(s) && Later(a, s) && Spares(a, b, spared) && Born(a)
    requires Known(a, o) && o !in spared && InLiveClosure(s, o)
    ensures exists c :: c in a.hist[a.head].checkpoints && Dead(b, c)
              && c.manifestId in s.hist && o in Objects(s.hist[c.manifestId])
  {
    hide NewPinsAreNew, NoRevival, Objects, Protected, Dead;
    var k :| k in Members(s.hist[s.head], s.now) && k in s.hist && o in Objects(s.hist[k]);
    if a.head <= k {
      KnownObject(a, s, k, o);
      assert false;
    } else {
      var c, d := OldPinListed(a, s, k);
      assert Sound(a, a.head);
    }
  }

  /** A pin older than the head that was read came from an entry that head lists. */
  lemma OldPinListed(a: Source, s: Source, k: nat) returns (c: Checkpoint, d: Checkpoint)
    requires SourceOk(a) && SourceOk(s) && Later(a, s) && Born(a) && k < a.head
    requires Born(s) && s.head in s.hist && k in Members(s.hist[s.head], s.now)
    ensures c in a.hist[a.head].checkpoints && c.manifestId == k
    ensures d in s.hist[s.head].checkpoints && d.id == c.id && Live(d, s.now)
  {
    assert Sound(s, s.head) && Sound(a, a.head) && NewPinsAreNew(a, s, s.head);
    d :| d in s.hist[s.head].checkpoints && Live(d, s.now) && d.manifestId == k;
    if a.head == s.head {
      c := d;
    } else {
      c :| c in a.hist[a.head].checkpoints && c.id == d.id;
      assert Ordered(s.hist, a.head, s.head) && SameCheckpoint(c, d);
    }
  }

  lemma OldPinSpared(a: Source, b: Source, spared: set<DataObject>, s: Source, k: nat)
    requires SourceOk(a) && SourceOk(b) && SourceOk(s) && Later(b, s) && Later(a, s)
    requires Spares(a, b, spared) && Born(a) && k < a.head
    requires Born(s) && s.head in s.hist && k in Members(s.hist[s.head], s.now) && k in s.hist
    ensures Objects(s.hist[k]) <= spared
  {
    hide NewPinsAreNew, NoRevival, Objects, Protected;
    var c, d := OldPinListed(a, s, k);
    assert Sound(a, a.head);
    if Dead(b, c) {
      DeadStays(a, b, s, c);
    }
  }

  /* The reads. */

  /** The pinned manifest `p` has been dealt with: its objects are spared, or every
      checkpoint pinning it had died. */
  ghost predicate Handled(a: Source, b: Source, spared: set<DataObject>, p: nat)
  {
    a.head in a.hist && p in b.hist ==>
      Objects(b.hist[p]) <= spared
      || forall c | c in a.hist[a.head].checkpoints && c.manifestId == p :: Dead(b, c)
  }

  lemma HandledLater(first: Source, a: State, b: State, cfg: Settings, cur: set<DataObject>,
                     more: set<DataObject>, p: nat)
    requires Inv(a, cfg) && Inv(b, cfg) && EnvMoves(a, b) && SourceOk(first) && Later(first, a.src)
    requires Born(first) && first.head in first.hist && Handled(first, a.src, cur, p) && cur <= more
    requires p in first.hist
    ensures Handled(first, b.src, more, p)
  {
    if !(Objects(b.src.hist[p]) <= more) {
      forall c | c in first.hist[first.head].checkpoints && c.manifestId == p
        ensures Dead(b.src, c)
      {
        DeadStays(first, a.src, b.src, c);
      }
    }
  }

  /** What has been spared once the pins `seen` have been followed, undisturbed. */
  function SparedPart(s: Source, seen: set<nat>): set<DataObject>
    requires s.head in s.hist
  {
    Objects(s.hist[s.head])
    + set p, o | p in seen && p in s.live && p in s.hist && o in Objects(s.hist[p]) :: o
  }

  ghost predicate Sparing(first: Source, st: State, spared: set<DataObject>, seen: set<nat>, k: nat)
    requires first.head in first.hist && k <= |first.hist[first.head].checkpoints|
  {
    var cps := first.hist[first.head].checkpoints;
    && Later(first, st.src) && Objects(first.hist[first.head]) <= spared
    && (forall p | p in seen :: p in first.hist && Handled(first, st.src, spared, p))
    && (forall i | 0 <= i < k :: cps[i].manifestId == first.head || cps[i].manifestId in seen)
  }

  lemma {:induction false} SparingMoves(first: Source, a: State, b: State, cfg: Settings, spared: set<DataObject>,
                     more: set<DataObject>, seen: set<nat>, k: nat)
    requires Inv(a, cfg) && Inv(b, cfg) && EnvMoves(a, b) && SourceOk(first) && Born(first)
    requires first.head in first.hist && k <= |first.hist[first.head].checkpoints|
    requires Sparing(first, a, spared, seen, k) && spared <= more
    ensures Sparing(first, b, more, seen, k)
  {
    LaterTrans(first, a.src, b.src);
    forall p | p in seen ensures Handled(first, b.src, more, p) {
      HandledLater(first, a, b, cfg, spared, more, p);
    }
  }

  /** Following one more entry: its pinned manifest was read, or was gone. */
  lemma SparingFollows(first: Source, st: State, cfg: Settings, spared: set<DataObject>, more: set<DataObject>,
                       seen: set<nat>, k: nat)
    requires Inv(st, cfg) && SourceOk(first) && Born(first) && first.head in first.hist
    requires k < |first.hist[first.head].checkpoints|
    requires Sparing(first, st, spared, seen, k) && spared <= more
    requires var p := first.hist[first.head].checkpoints[k].manifestId;
             p !in st.src.live || (p in st.src.hist && Objects(st.src.hist[p]) <= more)
    ensures Sparing(first, st, more, seen + {first.hist[first.head].checkpoints[k].manifestId}, k + 1)
  {
    var cps := first.hist[first.head].checkpoints;
    var p := cps[k].manifestId;
    assert Sound(first, first.head) && cps[k] in cps;
    NothingMoved(st, cfg);
    forall q | q in seen ensures Handled(first, st.src, more, q) {
      HandledLater(first, st, st, cfg, spared, more, q);
    }
    assert Handled(first, st.src, more, p) by {
      if p !in st.src.live {
        forall c | c in cps && c.manifestId == p ensures Dead(st.src, c) {
          GoneMeansDead(first, st.src, c);
        }
      }
    }
  }

  lemma SparingEnds(first: Source, st: State, cfg: Settings, spared: set<DataObject>, seen: set<nat>)
    requires Inv(st, cfg) && SourceOk(first) && Born(first) && first.head in first.hist
    requires Sparing(first, st, spared, seen, |first.hist[first.head].checkpoints|)
    ensures Spares(first, st.src, spared)
  {
    forall c | c in first.hist[first.head].checkpoints && c.manifestId in st.src.hist
      ensures Objects(st.src.hist[c.manifestId]) <= spared || Dead(st.src, c)
    {
      var i :| 0 <= i < |first.hist[first.head].checkpoints| && first.hist[first.head].checkpoints[i] == c;
      if c.manifestId != first.head {
        assert Handled(first, st.src, spared, c.manifestId);
      }
    }
  }

  /** `source_closure`: the latest manifest's objects and those of every manifest a
      checkpoint entry pins, expired entries included. A pinned manifest that is
      gone is skipped. */
  method SourceClosure(w: Stores) returns (r: Fetch<set<DataObject>>, ghost first: Source)
    requires w.Valid()
    modifies w
    ensures w.Valid() && EnvMoves(old(w.st), w.st)
    ensures SourceOk(first) && Later(old(w.st.src), first) && Later(first, w.st.src)
    ensures r.Found? ==> Born(first) && Spares(first, w.st.src, r.value)
    ensures old(w.Quiet()) ==> w.Quiet() && w.st == old(w.st) && !r.Failed?
    ensures old(w.Quiet()) && Born(old(w.st.src)) && old(w.st.src).head in old(w.st.src).hist ==>
              r.Found? && r.value == SparedBy(old(w.st.src))
  {
    hide Inv, Objects, Later, EnvMoves, Sparing, Spares, SparedPart, SparedBy;
    ghost var start := w.st;
    var read := w.ReadSourceHead();
    first := w.st.src;
    SourceFacts(start, w.st, w.cfg);
    if read.Failed? { return Failed, first; }
    if read.Missing? { return Missing, first; }
    var latest := read.value;
    var spared := Layout.ManifestObjects(latest);
    var seen: set<nat> := {};
    SparingStarts(first, w.st, w.cfg, spared);
    for k := 0 to |latest.checkpoints|
      invariant w.Valid() && EnvMoves(start, w.st)
      invariant first.head in first.hist && first.hist[first.head] == latest
      invariant Sparing(first, w.st, spared, seen, k)
      invariant old(w.Quiet()) ==> w.Quiet() && w.st == start && first == start.src
      invariant old(w.Quiet()) ==> spared == SparedPart(first, seen)
      invariant forall i | 0 <= i < k :: latest.checkpoints[i].manifestId in seen + {first.head}
      invariant forall p | p in seen :: exists c | c in latest.checkpoints :: c.manifestId == p
    {
      var cp := latest.checkpoints[k];
      if cp.manifestId == latest.id || cp.manifestId in seen {
        SparingSkips(first, w.st, spared, seen, k);
        continue;
      }
      ghost var before := w.st;
      var pinned := w.ReadSource(cp.manifestId);
      EnvMovesTrans(start, before, w.st, w.cfg);
      SparingMoves(first, before, w.st, w.cfg, spared, spared, seen, k);
      SourceFacts(start, w.st, w.cfg);
      if pinned.Failed? { return Failed, first; }
      ghost var was, seenBefore := spared, seen;
      if pinned.Found? {
        var objects := Layout.ManifestObjects(pinned.value);
        spared := spared + objects;
      }
      seen := seen + {cp.manifestId};
      SparingFollows(first, w.st, w.cfg, was, spared, seenBefore, k);
      SparedPartGrows(first, seenBefore, cp.manifestId);
    }
    SparingEnds(first, w.st, w.cfg, spared, seen);
    SparedPartEnds(first, seen);
    return Found(spared), first;
  }

  lemma SourceFacts(a: State, b: State, cfg: Settings)
    requires Inv(a, cfg) && Inv(b, cfg) && EnvMoves(a, b)
    ensures SourceOk(b.src) && Later(a.src, b.src) && Later(b.src, b.src)
    ensures Born(b.src) ==> b.src.head in b.src.hist && b.src.hist[b.src.head].id == b.src.head
  {
    LaterRefl(b.src);
    assert Sound(b.src, b.src.head);
  }

  lemma SparingStarts(first: Source, st: State, cfg: Settings, spared: set<DataObject>)
    requires Inv(st, cfg) && first == st.src && Born(first) && first.head in first.hist
    requires spared == Objects(first.hist[first.head])
    ensures Sparing(first, st, spared, {}, 0) && spared == SparedPart(first, {})
  {
    LaterRefl(first);
  }

  lemma SparingSkips(first: Source, st: State, spared: set<DataObject>, seen: set<nat>, k: nat)
    requires first.head in first.hist && k < |first.hist[first.head].checkpoints|
    requires Sparing(first, st, spared, seen, k)
    requires first.hist[first.head].checkpoints[k].manifestId in seen + {first.head}
    ensures Sparing(first, st, spared, seen, k + 1)
  {
  }

  lemma SparedPartGrows(s: Source, seen: set<nat>, p: nat)
    requires s.head in s.hist
    ensures SparedPart(s, seen + {p}) ==
            SparedPart(s, seen) + if p in s.live && p in s.hist then Objects(s.hist[p]) else {}
  {
  }

  lemma SparedPartEnds(s: Source, seen: set<nat>)
    requires s.head in s.hist
    requires forall p | p in seen :: exists c | c in s.hist[s.head].checkpoints :: c.manifestId == p
    requires forall i | 0 <= i < |s.hist[s.head].checkpoints| ::
               s.hist[s.head].checkpoints[i].manifestId in seen + {s.head}
    ensures SparedPart(s, seen) == SparedBy(s)
  {
    forall o | o in SparedBy(s) ensures o in SparedPart(s, seen) {
      if o !in Objects(s.hist[s.head]) {
        var c :| c in s.hist[s.head].checkpoints && c.manifestId in s.live && c.manifestId in s.hist
                 && o in Objects(s.hist[c.manifestId]);
        assert c.manifestId in seen;
      }
    }
    forall o | o in SparedPart(s, seen) ensures o in SparedBy(s) {
      if o !in Objects(s.hist[s.head]) {
        var p :| p in seen && p in s.live && p in s.hist && o in Objects(s.hist[p]);
        var c :| c in s.hist[s.head].checkpoints && c.manifestId == p;
      }
    }
  }

  lemma PinFloorNone(name: string, minAge: nat)
    ensures PinFloor([], name, minAge) == None
  {
  }

  lemma {:induction false} PinFloorNext(cs: seq<Checkpoint>, k: nat, name: string, minAge: nat)
    requires k < |cs|
    ensures var before, at := PinFloor(cs[..k], name, minAge), cs[k].created - minAge;
            PinFloor(cs[..k + 1], name, minAge) ==
            if cs[k].name != name then before
            else if before.None? then Some(at) else Some(Min(before.value, at))
  {
    var s := cs[..k + 1];
    assert |s| == k + 1 && s[..|s| - 1] == cs[..k] && s[|s| - 1] == cs[k];
    var before := PinFloor(s[..|s| - 1], name, minAge);
  }

  /** Guard 2: the creation time of the oldest checkpoint named for the target, less
      the slack. A failed read only loses this guard. */
  method ReadPinFloor(w: Stores) returns (floor: Option<int>, ghost pins: Option<seq<Checkpoint>>)
    requires w.Valid()
    modifies w
    ensures w.Valid() && EnvMoves(old(w.st), w.st)
    ensures pins.Some? ==> ListsPins(w.st.src, pins.value)
    ensures floor == if pins.None? then None else PinFloor(pins.value, w.cfg.pinName, w.cfg.minAge)
    ensures old(w.Quiet()) ==> w.Quiet() && w.st == old(w.st)
    ensures old(w.Quiet()) && Born(old(w.st.src)) ==>
              floor == PinFloor(w.st.src.hist[w.st.src.head].checkpoints, w.cfg.pinName, w.cfg.minAge)
  {
    hide PinFloor;
    var read := w.ReadSourceHead();
    if !read.Found? { return None, None; }
    pins := Some(read.value.checkpoints);
    floor := OldestPin(read.value.checkpoints, w.cfg.pinName, w.cfg.minAge);
  }

  /** The checkpoints of the source's latest manifest. */
  ghost predicate ListsPins(s: Source, cs: seq<Checkpoint>) {
    s.head in s.hist && cs == s.hist[s.head].checkpoints
  }

  method OldestPin(cps: seq<Checkpoint>, name: string, minAge: nat) returns (floor: Option<int>)
    ensures floor == PinFloor(cps, name, minAge)
  {
    hide PinFloor;
    floor := None;
    PinFloorNone(name, minAge);
    for k := 0 to |cps|
      invariant floor == PinFloor(cps[..k], name, minAge)
    {
      PinFloorNext(cps, k, name, minAge);
      if cps[k].name == name {
        var at := cps[k].created - minAge;
        floor := if floor.None? then Some(at) else Some(Min(floor.value, at));
      }
    }
    assert cps[..|cps|] == cps;
  }

  /** The target's manifests are what was listed. */
  ghost predicate Lists(st: State, ms: map<nat, Stored>) {
    st.dst.manifests == ms && forall i | i in ms :: i in st.src.hist && ms[i].body == st.src.hist[i]
  }

  lemma ListsStable(a: State, b: State, ms: map<nat, Stored>)
    requires Lists(a, ms) && EnvMoves(a, b)
    ensures Lists(b, ms)
  {
  }

  /** Read a target manifest, from what was decoded before if possible. */
  method ReadDecoded(w: Stores, decoded: map<nat, Manifest>, id: nat, ghost ms: map<nat, Stored>)
    returns (r: Fetch<Manifest>, more: map<nat, Manifest>)
    requires w.Valid() && Lists(w.st, ms) && forall i | i in decoded :: i in ms && decoded[i] == ms[i].body
    modifies w
    ensures w.Valid() && EnvMoves(old(w.st), w.st) && Lists(w.st, ms)
    ensures old(w.Quiet()) ==> w.Quiet() && w.st == old(w.st) && !r.Failed?
    ensures r.Found? ==> id in ms && r.value == ms[id].body
    ensures r.Missing? ==> id !in ms
    ensures forall i | i in more :: i in ms && more[i] == ms[i].body
  {
    if id in decoded {
      NothingMoved(w.st, w.cfg);
      return Found(decoded[id]), decoded;
    }
    r := w.ReadTarget(id);
    more := if r.Found? then decoded[id := r.value] else decoded;
  }

  lemma SupportGrows(ms: map<nat, Stored>, points: set<nat>, id: nat, now: nat)
    requires id in ms
    ensures Support(ms, points + {id}, now) ==
            Support(ms, points, now) + set p | p in LivePins(ms[id].body, now) && p in ms
  {
    var more := set p | p in LivePins(ms[id].body, now) && p in ms;
    forall p | p in more
      ensures p in Support(ms, points + {id}, now)
    {
      var c :| c in ms[id].body.checkpoints && Live(c, now) && c.manifestId == p;
      assert id in points + {id};
    }
  }

  /** Restore points and their support. A restore point is kept whether or not it
      decodes; a pinned manifest the target lacks is skipped. */
  method KeptManifests(w: Stores, points: set<nat>, now: nat, ghost ms: map<nat, Stored>)
    returns (r: Fetch<set<nat>>, decoded: map<nat, Manifest>)
    requires w.Valid() && Lists(w.st, ms) && points <= ms.Keys
    modifies w
    ensures w.Valid() && EnvMoves(old(w.st), w.st) && Lists(w.st, ms) && !r.Missing?
    ensures old(w.Quiet()) ==> w.Quiet() && w.st == old(w.st) && !r.Failed?
    ensures r.Found? ==> r.value == points + Support(ms, points, now)
    ensures forall i | i in decoded :: i in ms && decoded[i] == ms[i].body
  {
    hide Inv, Later, Objects, EnvMoves, Lists, Support;
    ghost var start := w.st;
    NothingMoved(w.st, w.cfg);
    ListsKeys(w.st, ms);
    var ids := w.st.dst.manifests.Keys;
    var kept: set<nat> := {};
    decoded := map[];
    var rest := points;
    NoSupport(ms, now);
    assert points - rest == {};
    while rest != {}
      invariant w.Valid() && EnvMoves(start, w.st) && Lists(w.st, ms) && rest <= points
      invariant old(w.Quiet()) ==> w.Quiet() && w.st == start
      invariant kept == (points - rest) + Support(ms, points - rest, now)
      invariant forall i | i in decoded :: i in ms && decoded[i] == ms[i].body
    {
      var id := MinOf(rest);
      ghost var before := w.st;
      var m: Fetch<Manifest>;
      m, decoded := ReadDecoded(w, decoded, id, ms);
      EnvMovesTrans(start, before, w.st, w.cfg);
      if m.Failed? { return Failed, decoded; }
      SupportGrows(ms, points - rest, id, now);
      assert points - (rest - {id}) == points - rest + {id};
      kept := kept + {id};
      rest := rest - {id};
      if m.Found? {
        kept := kept + set p | p in LivePins(m.value, now) && p in ids;
      }
    }
    assert points - rest == points;
    return Found(kept), decoded;
  }

  lemma NoSupport(ms: map<nat, Stored>, now: nat)
    ensures Support(ms, {}, now) == {}
  {
  }

  lemma ListsKeys(st: State, ms: map<nat, Stored>)
    requires Lists(st, ms)
    ensures st.dst.manifests == ms && Listing(st.dst) == Listing(Target(ms, map[]))
  {
  }

  lemma KeptObjectsGrow(ms: map<nat, Stored>, kept: set<nat>, id: nat)
    requires id in ms
    ensures KeptObjects(ms, kept + {id}) == KeptObjects(ms, kept) + Objects(ms[id].body)
  {
    assert id in kept + {id};
  }

  /** The objects the kept manifests reference. One that cannot be read leaves its
      objects unknown, and then no data object may go. */
  method ReferencedBy(w: Stores, kept: set<nat>, decodedBefore: map<nat, Manifest>, ghost ms: map<nat, Stored>)
    returns (r: Fetch<(set<DataObject>, bool)>, decoded: map<nat, Manifest>)
    requires w.Valid() && Lists(w.st, ms) && kept <= ms.Keys
    requires forall i | i in decodedBefore :: i in ms && decodedBefore[i] == ms[i].body
    modifies w
    ensures w.Valid() && EnvMoves(old(w.st), w.st) && Lists(w.st, ms) && !r.Missing?
    ensures old(w.Quiet()) ==> w.Quiet() && w.st == old(w.st) && !r.Failed?
    ensures r.Found? ==> r.value.1 && r.value.0 == KeptObjects(ms, kept)
    ensures forall i | i in decoded :: i in ms && decoded[i] == ms[i].body
  {
    hide Inv, Later, Objects, EnvMoves, Lists, KeptObjects;
    ghost var start := w.st;
    NothingMoved(w.st, w.cfg);
    NoKeptObjects(ms);
    decoded := decodedBefore;
    var objects: set<DataObject> := {};
    var allDecoded := true;
    var rest := kept;
    assert kept - rest == {};
    while rest != {}
      invariant w.Valid() && EnvMoves(start, w.st) && Lists(w.st, ms) && rest <= kept
      invariant old(w.Quiet()) ==> w.Quiet() && w.st == start
      invariant allDecoded && objects == KeptObjects(ms, kept - rest)
      invariant forall i | i in decoded :: i in ms && decoded[i] == ms[i].body
    {
      var id := MinOf(rest);
      ghost var before := w.st;
      var m: Fetch<Manifest>;
      m, decoded := ReadDecoded(w, decoded, id, ms);
      EnvMovesTrans(start, before, w.st, w.cfg);
      if m.Failed? { return Failed, decoded; }
      KeptObjectsGrow(ms, kept - rest, id);
      assert kept - (rest - {id}) == kept - rest + {id};
      rest := rest - {id};
      if m.Found? {
        var more := Layout.ManifestObjects(m.value);
        objects := objects + more;
      } else {
        allDecoded := false;
      }
    }
    assert kept - rest == kept;
    return Found((objects, allDecoded)), decoded;
  }

  lemma NoKeptObjects(ms: map<nat, Stored>)
    ensures KeptObjects(ms, {}) == {}
  {
  }

  /* The deletions. */

  /** Delete the listed manifests that are not kept, in ascending order. */
  method DropManifests(w: Stores, listed: set<nat>, kept: set<nat>) returns (ok: bool, count: nat)
    requires w.Valid() && Covers(w.st, w.cfg, kept) && w.st.dst.manifests != map[]
    modifies w
    ensures w.Valid() && Shrinks(old(w.st), w.st) && w.st.dst.manifests != map[]
    ensures ok ==> w.st.dst.manifests == old(w.st.dst.manifests) - (listed - kept)
                   && count == |listed - kept|
    ensures old(w.st.dst.objs).Keys <= w.st.dst.objs.Keys
    ensures !w.cfg.copier.External? ==> w.st.dst.objs == old(w.st.dst.objs)
    ensures old(w.Quiet()) ==> ok && w.Quiet() && w.st == old(w.st).(dst :=
              old(w.st.dst).(manifests := old(w.st.dst.manifests) - (listed - kept)))
  {
    hide Inv, Later, Shrinks, Covers, SafeToDrop;
    ghost var start := w.st;
    NothingShrunk(w.st, w.cfg);
    count := 0;
    var doomed := listed - kept;
    var rest := doomed;
    while rest != {}
      invariant w.Valid() && Shrinks(start, w.st) && Covers(w.st, w.cfg, kept) && rest <= doomed
      invariant w.st.dst.manifests == start.dst.manifests - (doomed - rest) && w.st.dst.manifests != map[]
      invariant start.dst.objs.Keys <= w.st.dst.objs.Keys
      invariant !w.cfg.copier.External? ==> w.st.dst.objs == start.dst.objs
      invariant |doomed| == count + |rest|
      invariant old(w.Quiet()) ==> w.Quiet() && w.st == start.(dst :=
                  start.dst.(manifests := start.dst.manifests - (doomed - rest)))
    {
      ghost var before := w.st;
      var id := MinOf(rest);
      UnkeptIsSafe(w.st, w.cfg, kept, id);
      var done := w.DeleteManifest(id);
      ShrinksTrans(start, before, w.st, w.cfg);
      StillSome(start, w.st);
      CoversStable(before, w.st, w.cfg, kept);
      if !done { return false, count; }
      assert doomed - (rest - {id}) == doomed - rest + {id};
      rest := rest - {id};
      count := count + 1;
    }
    assert doomed - rest == doomed;
    return true, count;
  }

  lemma NothingShrunk(st: State, cfg: Settings)
    requires Inv(st, cfg)
    ensures Shrinks(st, st)
  {
    LaterRefl(st.src);
  }

  lemma StillSome(a: State, b: State)
    requires Shrinks(a, b) && a.dst.manifests != map[]
    ensures b.dst.manifests != map[]
  {
    assert IsLatest(a.dst, MaxOf(a.dst.manifests.Keys));
  }

  /** The guards describe the manifests that are left. */
  ghost predicate GuardsFit(st: State, g: Guards) {
    && st.dst.manifests != map[]
    && (forall i | i in st.dst.manifests :: Objects(st.dst.manifests[i].body) <= g.kept)
    && (forall h | IsLatest(st.dst, h) :: g.tailFloor == st.dst.manifests[h].body.nextWal)
  }

  /** The listed objects of one directory that the guards do not hold back. */
  function Doomed(listed: map<DataObject, nat>, g: Guards, wals: bool): set<DataObject> {
    set o | o in listed && o.Wal? == wals && !Stays(g, o, listed[o])
  }

  /** Delete the objects of one directory that nothing holds back. */
  method DropObjects(w: Stores, listed: map<DataObject, nat>, g: Guards, wals: bool)
    returns (ok: bool, count: nat, ghost deleted: set<DataObject>)
    requires w.Valid() && GuardsFit(w.st, g)
    modifies w
    ensures w.Valid() && Shrinks(old(w.st), w.st) && w.st.dst.manifests == old(w.st.dst.manifests)
    ensures deleted <= Doomed(listed, g, wals)
    ensures forall o | o in deleted ::
              && o in listed && o.Wal? == wals && o !in g.kept && o !in g.spared && (o.Wal? ==> o.id < g.tailFloor)
              && g.now - listed[o] > g.minAge && (g.floor.Some? ==> listed[o] < g.floor.value)
    ensures ok ==> forall o | o in listed && o.Wal? == wals && o !in g.kept && o !in g.spared
                              && (o.Wal? ==> o.id < g.tailFloor) && g.now - listed[o] > g.minAge
                              && (g.floor.Some? ==> listed[o] < g.floor.value) :: o in deleted
    ensures old(w.st.dst.objs).Keys - deleted <= w.st.dst.objs.Keys
    ensures ok ==> count == |Doomed(listed, g, wals)|
    ensures ok && !w.cfg.copier.External? ==> w.st.dst.objs == old(w.st.dst.objs) - Doomed(listed, g, wals)
    ensures old(w.Quiet()) ==> ok && w.Quiet() && w.st == old(w.st).(dst :=
              old(w.st.dst).(objs := old(w.st.dst.objs) - Doomed(listed, g, wals)))
  {
    hide *;
    ghost var start := w.st;
    NothingShrunk(w.st, w.cfg);
    deleted := {};
    count := 0;
    var doomed := Doomed(listed, g, wals);
    var rest := doomed;
    NoneMissing(start.dst.objs);
    while rest != {}
      invariant w.Valid() && Shrinks(start, w.st) && GuardsFit(w.st, g) && rest <= doomed
      invariant w.st.dst.manifests == start.dst.manifests && deleted == doomed - rest
      invariant start.dst.objs.Keys - deleted <= w.st.dst.objs.Keys
      invariant !w.cfg.copier.External? ==> w.st.dst.objs == start.dst.objs - deleted
      invariant |doomed| == count + |rest|
      invariant old(w.Quiet()) ==> w.Quiet() && w.st == start.(dst := start.dst.(objs := start.dst.objs - deleted))
    {
      ghost var before := w.st;
      var o :| o in rest;
      DoomedIs(listed, g, wals, o);
      UnkeptFits(w.st, w.cfg, g, o);
      OneLess(start.dst.objs, deleted, o);
      deleted := deleted + {o};
      rest := rest - {o};
      var done := w.DeleteObject(o);
      ShrinksTrans(start, before, w.st, w.cfg);
      FitStays(before, w.st, g);
      if !done {
        DeletedAre(listed, g, wals, deleted);
        return false, count, deleted;
      }
      count := count + 1;
    }
    DeletedAre(listed, g, wals, deleted);
    return true, count, deleted;
  }

  lemma NoneMissing(objs: map<DataObject, nat>)
    ensures objs - {} == objs
  {
  }

  lemma OneLess(objs: map<DataObject, nat>, gone: set<DataObject>, o: DataObject)
    ensures objs - gone - {o} == objs - (gone + {o})
  {
  }

  /** Exactly what no guard holds back. */
  lemma DoomedAre(listed: map<DataObject, nat>, g: Guards, wals: bool)
    ensures forall o :: o in Doomed(listed, g, wals) <==>
              && o in listed && o.Wal? == wals && o !in g.kept && o !in g.spared && (o.Wal? ==> o.id < g.tailFloor)
              && g.now - listed[o] > g.minAge && (g.floor.Some? ==> listed[o] < g.floor.value)
  {
  }

  lemma DoomedIs(listed: map<DataObject, nat>, g: Guards, wals: bool, o: DataObject)
    requires o in Doomed(listed, g, wals)
    ensures o !in g.kept && (o.Wal? ==> o.id < g.tailFloor)
  {
  }

  lemma DeletedAre(listed: map<DataObject, nat>, g: Guards, wals: bool, deleted: set<DataObject>)
    requires deleted <= Doomed(listed, g, wals)
    ensures forall o | o in deleted ::
              && o in listed && o.Wal? == wals && o !in g.kept && o !in g.spared && (o.Wal? ==> o.id < g.tailFloor)
              && g.now - listed[o] > g.minAge && (g.floor.Some? ==> listed[o] < g.floor.value)
    ensures deleted == Doomed(listed, g, wals) ==>
              forall o | o in listed && o.Wal? == wals && o !in g.kept && o !in g.spared
                         && (o.Wal? ==> o.id < g.tailFloor) && g.now - listed[o] > g.minAge
                         && (g.floor.Some? ==> listed[o] < g.floor.value) :: o in deleted
  {
    DoomedAre(listed, g, wals);
    hide Doomed;
  }

  lemma FitStays(a: State, b: State, g: Guards)
    requires GuardsFit(a, g) && b.dst.manifests == a.dst.manifests
    ensures GuardsFit(b, g)
  {
    forall h | IsLatest(b.dst, h) ensures IsLatest(a.dst, h) {}
  }

  lemma {:induction false} UnkeptFits(st: State, cfg: Settings, g: Guards, o: DataObject)
    requires Inv(st, cfg) && GuardsFit(st, g) && o !in g.kept && (o.Wal? ==> o.id < g.tailFloor)
    ensures Unneeded(st, o)
  {
    UnkeptIsUnneeded(st, cfg, g, o);
  }

  /* One prune. */

  /** What a prune had read of the source before it deleted: `first` when it read the
      source's latest manifest, `read` when it had followed the pins; everything it has
      asked to delete since, the guards it went by, and the source's checkpoints as it
      read them for the last of these. */
  datatype Trace = Trace(
    first: Source, read: Source, deleted: set<DataObject>, guards: Guards, pins: Option<seq<Checkpoint>>)

  const NO_GUARDS := Guards({}, {}, 0, 0, 0, None)

  /** No object deleted, if it was known by the read, is in the closure of any head
      the source has from the read on. */
  ghost predicate Exact(t: Trace) {
    forall s, o | o in t.deleted && Known(t.first, o) && SourceOk(s) && Later(t.read, s) :: !InLiveClosure(s, o)
  }

  /** Whether everything deleted was known by the read. */
  ghost predicate AllKnown(t: Trace, external: bool) {
    forall o | o in t.deleted && (o.Wal? || !external) :: Known(t.first, o)
  }

  lemma ListedIsKnown(at: State, cfg: Settings, first: Source, listed: map<DataObject, nat>, g: Guards, wals: bool,
                      h: nat)
    requires Inv(at, cfg) && listed.Keys <= at.dst.objs.Keys && SourceOk(first) && Later(at.src, first)
    requires IsLatest(at.dst, h) && at.dst.manifests[h].body.nextWal == g.tailFloor
    ensures forall o | o in Doomed(listed, g, wals) && (o.Wal? || !cfg.copier.External?) :: Known(first, o)
  {
    assert Held(at, h) && Sound(at.src, h) && Ordered(first.hist, h, first.head);
    forall o | o in Doomed(listed, g, wals) && (o.Wal? || !cfg.copier.External?)
      ensures Known(first, o)
    {
      match o
      case Wal(_) =>
      case Compacted(_) =>
        assert Explained(at, o);
        var i :| i in at.src.hist && o in Objects(at.src.hist[i]);
        assert i in first.hist && first.hist[i] == at.src.hist[i];
    }
  }

  lemma DoomedIsExact(first: Source, read: Source, g: Guards, listed: map<DataObject, nat>, wals: bool)
    requires SourceOk(first) && SourceOk(read) && Born(first) && Spares(first, read, g.spared)
    ensures Exact(Trace(first, read, Doomed(listed, g, wals), g, None))
  {
    forall s, o | o in Doomed(listed, g, wals) && Known(first, o) && SourceOk(s) && Later(read, s)
      ensures !InLiveClosure(s, o)
    {
      GuardIsExact(first, read, g.spared, s, o);
    }
  }

  /** What a prune decides before it deletes anything. */
  datatype Plan = Plan(
    listed: set<nat>, kept: set<nat>, compacted: map<DataObject, nat>, wals: map<DataObject, nat>,
    guards: Guards, dataDeletion: bool)

  /** The plan describes the target: deleting by it is safe. */
  ghost predicate Fits(st: State, cfg: Settings, p: Plan) {
    && st.dst.manifests != map[] && p.listed == st.dst.manifests.Keys && p.kept <= p.listed
    && Covers(st, cfg, p.kept)
    && p.guards.kept == KeptObjects(st.dst.manifests, p.kept)
    && p.guards.tailFloor == st.dst.manifests[MaxOf(st.dst.manifests.Keys)].body.nextWal
  }

  /** The reads a plan's data deletion rests on. */
  ghost predicate Grounded(p: Plan, first: Source, read: Source, external: bool) {
    p.dataDeletion ==>
      && SourceOk(first) && SourceOk(read) && Born(first) && Spares(first, read, p.guards.spared)
      && (forall o | o in Doomed(p.compacted, p.guards, false) && !external :: Known(first, o))
      && forall o | o in Doomed(p.wals, p.guards, true) :: Known(first, o)
  }

  /** The plan keeps what it should of the target as it was, and lists its objects;
      an outside replicator may have brought more meanwhile. */
  ghost predicate DrawnFrom(p: Plan, was: State, cfg: Settings, now: nat) {
    && cfg.keep.Some? && p.kept == Kept(was.dst.manifests, cfg.keep.value, now)
    && p.guards.now == now && p.guards.minAge == cfg.minAge
    && (!cfg.copier.External? ==> p.compacted == was.dst.objs && p.wals == was.dst.objs)
  }

  lemma PlanDrawn(start: State, a: State, b: State, st: State, cfg: Settings, now: nat, p: Plan)
    requires Inv(start, cfg) && Inv(a, cfg) && Inv(b, cfg) && EnvMoves(start, a) && EnvMoves(start, b)
    requires EnvMoves(start, st)
    requires cfg.keep.Some? && p.kept == Kept(st.dst.manifests, cfg.keep.value, now)
    requires p.guards.now == now && p.guards.minAge == cfg.minAge && p.compacted == a.dst.objs && p.wals == b.dst.objs
    ensures DrawnFrom(p, start, cfg, now) && st.dst.manifests == start.dst.manifests
  {
    if !cfg.copier.External? {
      OnlyReplicatorsBring(start, a, cfg);
      OnlyReplicatorsBring(start, b, cfg);
    }
  }

  /** Without an outside replicator nobody else writes at the target. */
  lemma OnlyReplicatorsBring(a: State, b: State, cfg: Settings)
    requires Inv(a, cfg) && Inv(b, cfg) && EnvMoves(a, b) && !cfg.copier.External?
    ensures b.dst == a.dst
  {
  }

  /** The plan of an undisturbed prune. */
  ghost predicate PlansFor(p: Plan, st: State, cfg: Settings, now: nat)
    requires cfg.keep.Some? && st.dst.manifests != map[] && st.src.head in st.src.hist
  {
    && p.kept == Kept(st.dst.manifests, cfg.keep.value, now)
    && p.guards == GuardsFor(st.dst.manifests, st.src, cfg, now)
    && p.compacted == st.dst.objs && p.wals == st.dst.objs && p.dataDeletion
  }

  lemma ListsNow(st: State, cfg: Settings)
    requires Inv(st, cfg)
    ensures Lists(st, st.dst.manifests) && Listing(st.dst) == Listing(Target(st.dst.manifests, map[]))
    ensures Listing(st.dst) == map[] <==> st.dst.manifests == map[]
    ensures Listing(st.dst).Keys == st.dst.manifests.Keys
    ensures st.dst.manifests != map[] ==> Born(st.src)
  {
    forall i | i in st.dst.manifests
      ensures i in st.src.hist && st.dst.manifests[i].body == st.src.hist[i]
    {
      assert Held(st, i);
    }
    if st.dst.manifests != map[] {
      assert Held(st, MaxOf(st.dst.manifests.Keys));
      assert Listing(st.dst).Keys == st.dst.manifests.Keys;
    }
  }

  /** The restore points of a listing: the latest manifest and the young ones. */
  function Points(listing: map<nat, nat>, keep: nat, now: int): set<nat> {
    set i | i in listing && ((forall j | j in listing :: j <= i) || now - listing[i] < keep)
  }

  lemma PointsListed(t: Target, keep: nat, now: nat)
    ensures Points(Listing(t), keep, now) == RestorePoints(t.manifests, keep, now)
    ensures RestorePoints(t.manifests, keep, now) <= t.manifests.Keys == Listing(t).Keys
  {
    assert Listing(t).Keys == t.manifests.Keys;
  }

  /** What the kept manifests come to. */
  datatype Keeping = Keeping(manifests: set<nat>, objects: set<DataObject>, decoded: bool, tailFloor: nat)

  /** Choose the manifests to keep and enumerate what they reference. */
  method Decide(w: Stores, listing: map<nat, nat>, keep: nat, now: nat, ghost ms: map<nat, Stored>)
    returns (r: Fetch<Keeping>)
    requires w.Valid() && Lists(w.st, ms) && ms != map[] && listing == Listing(Target(ms, map[]))
    modifies w
    ensures w.Valid() && EnvMoves(old(w.st), w.st) && Lists(w.st, ms) && !r.Missing?
    ensures old(w.Quiet()) ==> w.Quiet() && w.st == old(w.st) && !r.Failed?
    ensures r.Found? ==>
              && r.value.manifests == Kept(ms, keep, now) && r.value.decoded
              && r.value.objects == KeptObjects(ms, r.value.manifests)
              && r.value.tailFloor == ms[MaxOf(ms.Keys)].body.nextWal
  {
    hide *;
    ghost var start := w.st;
    NothingMoved(w.st, w.cfg);
    PointsListed(Target(ms, map[]), keep, now);
    KeptListed(ms, keep, now);
    var kept, decoded := KeptManifests(w, Points(listing, keep, now), now, ms);
    if kept.Failed? { return Failed; }
    ghost var before := w.st;
    var referenced;
    referenced, decoded := ReferencedBy(w, kept.value, decoded, ms);
    Onward(start, start, before, w.st, w.cfg, ms);
    if referenced.Failed? { return Failed; }
    before := w.st;
    var top;
    top, decoded := ReadDecoded(w, decoded, MaxOf(listing.Keys), ms);
    Onward(start, start, before, w.st, w.cfg, ms);
    if top.Failed? { return Failed; }
    var tailFloor := if top.Found? then top.value.nextWal else 0;
    return Found(Keeping(kept.value, referenced.value.0, referenced.value.1, tailFloor));
  }

  /* What a prune never takes, told of the target as it was and of the settings. */

  /** Of the objects that were at the target, only those go that were older than the
      minimum age, and older by as much than every checkpoint with the pin's name. */
  ghost predicate TakesOnlyOld(was: map<DataObject, nat>, gone: set<DataObject>, pins: Option<seq<Checkpoint>>,
                               cfg: Settings, now: nat) {
    forall o | o in gone && o in was ::
      && now - was[o] > cfg.minAge
      && (pins.Some? ==> forall c | c in pins.value && c.name == cfg.pinName :: was[o] < c.created - cfg.minAge)
  }

  /** What was brought meanwhile is too young to go. */
  lemma DoomedIsOld(start: State, at: State, cfg: Settings, now: nat, g: Guards, wals: bool,
                    pins: Option<seq<Checkpoint>>)
    requires EnvMoves(start, at) && now <= start.src.now && g.now == now && g.minAge == cfg.minAge
    requires pins.Some? ==> g.floor == PinFloor(pins.value, cfg.pinName, cfg.minAge)
    ensures TakesOnlyOld(start.dst.objs, Doomed(at.dst.objs, g, wals), pins, cfg, now)
  {
    forall o | o in Doomed(at.dst.objs, g, wals) && o in start.dst.objs
      ensures at.dst.objs[o] == start.dst.objs[o] && now - start.dst.objs[o] > cfg.minAge
      ensures pins.Some? ==>
                forall c | c in pins.value && c.name == cfg.pinName :: start.dst.objs[o] < c.created - cfg.minAge
    {
    }
  }

  lemma BothOld(was: map<DataObject, nat>, a: set<DataObject>, b: set<DataObject>, gone: set<DataObject>,
                pins: Option<seq<Checkpoint>>, cfg: Settings, now: nat)
    requires TakesOnlyOld(was, a, pins, cfg, now) && TakesOnlyOld(was, b, pins, cfg, now) && gone <= a + b
    ensures TakesOnlyOld(was, gone, pins, cfg, now)
  {
    forall o | o in gone && o in was
      ensures now - was[o] > cfg.minAge
      ensures pins.Some? ==>
                forall c | c in pins.value && c.name == cfg.pinName :: was[o] < c.created - cfg.minAge
    {
      assert o in a || o in b;
    }
  }

  /** So everything else stays. */
  lemma YoungStay(was: Target, t: Trace, now: Target, cfg: Settings, at: nat)
    requires Accounted(was, t, now) && TakesOnlyOld(was.objs, t.deleted, t.pins, cfg, at)
    ensures forall o | o in was.objs && at - was.objs[o] <= cfg.minAge :: o in now.objs
    ensures t.pins.Some? ==> forall c, o | c in t.pins.value && c.name == cfg.pinName
                                           && o in was.objs && was.objs[o] >= c.created - cfg.minAge :: o in now.objs
  {
  }

  /** What is at the target, with the times it was written. */
  datatype Listings = Listings(
    manifests: map<nat, nat>, compacted: map<DataObject, nat>, wals: map<DataObject, nat>)

  /** The target is listed before the source is read. `Missing` means it is empty. */
  method ReadListings(w: Stores) returns (r: Fetch<Listings>, ghost compactedAt: State)
    requires w.Valid()
    modifies w
    ensures w.Valid() && EnvMoves(old(w.st), w.st)
    ensures r.Missing? ==> w.st.dst.manifests == map[]
    ensures r.Found? ==>
              && w.st.dst.manifests != map[] && Lists(w.st, w.st.dst.manifests) && Born(w.st.src)
              && r.value.manifests == Listing(Target(w.st.dst.manifests, map[]))
              && r.value.manifests.Keys == w.st.dst.manifests.Keys
    ensures r.Found? ==>
              && Inv(compactedAt, w.cfg) && EnvMoves(old(w.st), compactedAt) && EnvMoves(compactedAt, w.st)
              && compactedAt.dst.manifests == w.st.dst.manifests
              && r.value.compacted == compactedAt.dst.objs && r.value.wals == w.st.dst.objs
    ensures old(w.Quiet()) ==> w.Quiet() && w.st == old(w.st) && !r.Failed?
    ensures old(w.Quiet()) && r.Found? ==> compactedAt == old(w.st)
  {
    hide *;
    ghost var start := w.st;
    compactedAt := start;
    var manifests := w.ListTargetManifests();
    if manifests.Failed? { return Failed, compactedAt; }
    ghost var ms := w.st.dst.manifests;
    ListsNow(w.st, w.cfg);
    if manifests.value == map[] { return Missing, compactedAt; }
    ghost var before := w.st;
    var compacted := w.ListTargetObjects();
    Onward(start, start, before, w.st, w.cfg, ms);
    if compacted.Failed? { return Failed, compactedAt; }
    compactedAt := w.st;
    NothingMoved(w.st, w.cfg);
    var wals := w.ListTargetObjects();
    Onward(start, compactedAt, compactedAt, w.st, w.cfg, ms);
    if wals.Failed? { return Failed, compactedAt; }
    ListsNow(w.st, w.cfg);
    return Found(Listings(manifests.value, compacted.value, wals.value)), compactedAt;
  }

  /** Everything before the first deletion. `Missing` means the target is empty. */
  method Survey(w: Stores, keep: nat, now: nat)
    returns (r: Fetch<Plan>, ghost first: Source, ghost read: Source, ghost pins: Option<seq<Checkpoint>>)
    requires w.Valid() && w.cfg.keep == Some(keep) && now <= w.st.src.now
    modifies w
    ensures w.Valid() && EnvMoves(old(w.st), w.st)
    ensures r.Missing? ==> w.st.dst.manifests == map[]
    ensures r.Found? ==> Fits(w.st, w.cfg, r.value) && Grounded(r.value, first, read, w.cfg.copier.External?)
    ensures r.Found? ==> Later(old(w.st.src), first) && Later(first, read) && Later(read, w.st.src)
    ensures r.Found? ==> DrawnFrom(r.value, old(w.st), w.cfg, now) && w.st.dst.manifests == old(w.st.dst.manifests)
    ensures r.Found? ==> TakesOnlyOld(old(w.st.dst.objs), Doomed(r.value.compacted, r.value.guards, false),
                                      pins, w.cfg, now)
    ensures r.Found? ==> TakesOnlyOld(old(w.st.dst.objs), Doomed(r.value.wals, r.value.guards, true),
                                      pins, w.cfg, now)
    ensures r.Found? ==> PinsBetween(old(w.st.src), pins, w.st.src)
    ensures old(w.Quiet()) ==> w.Quiet() && w.st == old(w.st) && !r.Failed?
    ensures old(w.Quiet()) && old(w.st).src.head in old(w.st).src.hist && r.Found? ==>
              PlansFor(r.value, old(w.st), w.cfg, now)
  {
    hide *;
    ghost var start := w.st;
    first, read, pins := w.st.src, w.st.src, None;
    var found, compactedAt := ReadListings(w);
    if found.Failed? { return Failed, first, read, pins; }
    if found.Missing? { return Missing, first, read, pins; }
    var lists := found.value;
    ghost var ms, listed := w.st.dst.manifests, w.st;
    var spared, floor;
    ghost var readAt;
    spared, floor, first, readAt, pins := ReadSource(w);
    read := readAt.src;
    Onward(start, start, listed, w.st, w.cfg, ms);
    ghost var before := w.st;
    var decided := Decide(w, lists.manifests, keep, now, ms);
    Onward(start, readAt, before, w.st, w.cfg, ms);
    if decided.Failed? { return Failed, first, read, pins; }
    var kept := decided.value;
    var objects := if spared.Found? then spared.value else {};
    var guards := Guards(kept.objects, objects, kept.tailFloor, now, w.cfg.minAge, floor);
    var plan := Plan(lists.manifests.Keys, kept.manifests, lists.compacted, lists.wals, guards,
                     spared.Found? && kept.decoded);
    PinsMeanwhile(start, listed, before, w.st, w.cfg, pins);
    PlanFits(w.st, w.cfg, ms, now, plan);
    PlanGrounded(start, compactedAt, listed, w.st, w.cfg, plan, first, readAt);
    PlanDrawn(start, compactedAt, listed, w.st, w.cfg, now, plan);
    DoomedIsOld(start, compactedAt, w.cfg, now, guards, false, pins);
    DoomedIsOld(start, listed, w.cfg, now, guards, true, pins);
    QuietPlan(w.st, w.cfg, now, plan);
    return Found(plan), first, read, pins;
  }

  /** The source's two guards. The second is not read if the first cannot be. */
  method ReadSource(w: Stores)
    returns (spared: Fetch<set<DataObject>>, floor: Option<int>, ghost first: Source, ghost readAt: State,
             ghost pins: Option<seq<Checkpoint>>)
    requires w.Valid()
    modifies w
    ensures w.Valid() && EnvMoves(old(w.st), w.st)
    ensures Inv(readAt, w.cfg) && EnvMoves(old(w.st), readAt) && EnvMoves(readAt, w.st)
    ensures SourceOk(first) && Later(old(w.st.src), first) && Later(first, readAt.src)
    ensures spared.Found? ==> Born(first) && Spares(first, readAt.src, spared.value)
    ensures floor == if pins.None? then None else PinFloor(pins.value, w.cfg.pinName, w.cfg.minAge)
    ensures PinsBetween(old(w.st.src), pins, w.st.src)
    ensures old(w.Quiet()) ==> w.Quiet() && w.st == old(w.st)
    ensures old(w.Quiet()) && Born(old(w.st.src)) && old(w.st.src).head in old(w.st.src).hist ==>
              && spared.Found? && spared.value == SparedBy(old(w.st.src))
              && floor == PinFloor(old(w.st.src).hist[old(w.st.src).head].checkpoints, w.cfg.pinName, w.cfg.minAge)
  {
    hide *;
    ghost var start := w.st;
    spared, first := SourceClosure(w);
    floor, readAt, pins := None, w.st, None;
    NothingMoved(w.st, w.cfg);
    NoPins(start.src, w.st.src);
    if spared.Found? {
      floor, pins := ReadPinFloor(w);
      NothingMoved(w.st, w.cfg);
      EnvMovesTrans(start, readAt, w.st, w.cfg);
      PinsAmong(start, w.st, w.st, w.cfg, pins);
    }
  }

  /** The checkpoints read last are those of the source at some moment between. */
  ghost predicate PinsBetween(a: Source, pins: Option<seq<Checkpoint>>, b: Source) {
    pins.Some? ==> exists s :: SourceOk(s) && Later(a, s) && Later(s, b) && ListsPins(s, pins.value)
  }

  lemma NoPins(a: Source, b: Source)
    ensures PinsBetween(a, None, b)
  {
  }

  lemma PinsMeanwhile(start: State, a: State, b: State, end: State, cfg: Settings, pins: Option<seq<Checkpoint>>)
    requires Inv(start, cfg) && Inv(a, cfg) && Inv(b, cfg) && Inv(end, cfg)
    requires EnvMoves(start, a) && EnvMoves(b, end) && PinsBetween(a.src, pins, b.src)
    ensures PinsBetween(start.src, pins, end.src)
  {
    hide Later, ListsPins;
    if pins.Some? {
      var s :| SourceOk(s) && Later(a.src, s) && Later(s, b.src) && ListsPins(s, pins.value);
      MovesAreLater(start, a);
      MovesAreLater(b, end);
      LaterTrans(start.src, a.src, s);
      LaterTrans(s, b.src, end.src);
    }
  }

  lemma MovesAreLater(a: State, b: State)
    requires EnvMoves(a, b)
    ensures Later(a.src, b.src)
  {
  }

  lemma PinsAmong(a: State, b: State, c: State, cfg: Settings, pins: Option<seq<Checkpoint>>)
    requires Inv(b, cfg) && EnvMoves(a, b) && EnvMoves(b, c)
    requires pins.Some? ==> ListsPins(b.src, pins.value)
    ensures PinsBetween(a.src, pins, c.src)
  {
  }

  lemma Onward(start: State, mark: State, a: State, b: State, cfg: Settings, ms: map<nat, Stored>)
    requires Inv(start, cfg) && Inv(mark, cfg) && Inv(a, cfg) && Inv(b, cfg)
    requires EnvMoves(start, a) && EnvMoves(mark, a) && EnvMoves(a, b) && Lists(a, ms)
    ensures EnvMoves(start, b) && EnvMoves(mark, b) && Lists(b, ms)
    ensures b.dst.manifests == ms && start.src.now <= b.src.now
  {
    EnvMovesTrans(start, a, b, cfg);
    EnvMovesTrans(mark, a, b, cfg);
    ListsStable(a, b, ms);
  }

  lemma KeptListed(ms: map<nat, Stored>, keep: nat, now: nat)
    ensures Kept(ms, keep, now) <= ms.Keys
    ensures Kept(ms, keep, now) == RestorePoints(ms, keep, now) + Support(ms, RestorePoints(ms, keep, now), now)
  {
  }

  lemma {:induction false} PlanFits(st: State, cfg: Settings, ms: map<nat, Stored>, now: nat, p: Plan)
    requires Inv(st, cfg) && Lists(st, ms) && ms != map[] && cfg.keep.Some? && now <= st.src.now
    requires p.listed == ms.Keys && p.kept == Kept(ms, cfg.keep.value, now)
    requires p.guards.kept == KeptObjects(ms, p.kept)
    requires p.guards.tailFloor == ms[MaxOf(ms.Keys)].body.nextWal
    ensures Fits(st, cfg, p)
  {
    KeptListed(ms, cfg.keep.value, now);
    KeptCovers(st, cfg, now);
  }

  lemma {:induction false} PlanGrounded(start: State, a: State, b: State, st: State, cfg: Settings, p: Plan,
                                        first: Source, readAt: State)
    requires Inv(start, cfg) && Inv(a, cfg) && Inv(b, cfg) && Inv(st, cfg) && Inv(readAt, cfg)
    requires EnvMoves(start, b) && EnvMoves(a, b) && EnvMoves(readAt, st) && Fits(st, cfg, p)
    requires SourceOk(first) && Later(b.src, first) && Later(first, readAt.src)
    requires a.dst.manifests == st.dst.manifests && b.dst.manifests == st.dst.manifests
    requires p.compacted == a.dst.objs && p.wals == b.dst.objs
    requires p.dataDeletion ==> Born(first) && Spares(first, readAt.src, p.guards.spared)
    ensures Grounded(p, first, readAt.src, cfg.copier.External?)
    ensures Later(start.src, first) && Later(readAt.src, st.src)
  {
    LaterTrans(start.src, b.src, first);
    LaterTrans(a.src, b.src, first);
    var h := MaxOf(st.dst.manifests.Keys);
    ListedIsKnown(a, cfg, first, p.compacted, p.guards, false, h);
    ListedIsKnown(b, cfg, first, p.wals, p.guards, true, h);
  }

  lemma QuietPlan(st: State, cfg: Settings, now: nat, p: Plan)
    requires cfg.keep.Some? && st.dst.manifests != map[]
    requires p.kept == Kept(st.dst.manifests, cfg.keep.value, now)
    requires p.guards.kept == KeptObjects(st.dst.manifests, p.kept)
    requires p.guards.tailFloor == st.dst.manifests[MaxOf(st.dst.manifests.Keys)].body.nextWal
    requires p.guards.now == now && p.guards.minAge == cfg.minAge
    ensures st.src.head in st.src.hist && p.guards.spared == SparedBy(st.src)
            && p.guards.floor == PinFloor(st.src.hist[st.src.head].checkpoints, cfg.pinName, cfg.minAge)
            && p.compacted == st.dst.objs && p.wals == st.dst.objs && p.dataDeletion
            ==> PlansFor(p, st, cfg, now)
  {
  }

  /** A trace whose reads lie between two states of the source. */
  ghost predicate Between(a: Source, t: Trace, b: Source) {
    t.deleted != {} ==>
        SourceOk(t.first) && SourceOk(t.read) && Later(a, t.first) && Later(t.first, t.read) && Later(t.read, b)
  }

  /** Nothing has left the target but what the trace records. */
  ghost predicate Accounted(a: Target, t: Trace, b: Target) {
    a.objs.Keys <= b.objs.Keys + t.deleted
  }

  /** The guards are those the listed manifests and the source give. */
  ghost predicate GuardsRead(t: Trace, ms: map<nat, Stored>, kept: set<nat>, cfg: Settings, now: nat) {
    && ms != map[] && t.guards.kept == KeptObjects(ms, kept)
    && t.guards.tailFloor == ms[MaxOf(ms.Keys)].body.nextWal
    && t.guards.now == now && t.guards.minAge == cfg.minAge
    && Spares(t.first, t.read, t.guards.spared)
  }

  /** What a prune that reports success has done, whatever else went on meanwhile:
      exactly the manifests that are not kept are gone, and exactly the objects no
      guard holds back, unless an outside replicator has brought some again. */
  ghost predicate CarriedOut(was: Target, now: Target, cfg: Settings, at: nat, r: PruneReport, t: Trace) {
    if cfg.keep.None? || was.manifests == map[] then
      now.manifests == was.manifests && t.deleted == {} && r == NOTHING_PRUNED
    else
      var kept := Kept(was.manifests, cfg.keep.value, at);
      && now.manifests == OnlyKept(was.manifests, kept)
      && r.keptManifests == |kept| && r.deletedManifests == |was.manifests.Keys - kept|
      && (!r.dataDeletionRan ==> t.deleted == {} && r.deletedObjects == 0)
      && (r.dataDeletionRan ==> GuardsRead(t, was.manifests, kept, cfg, at))
      && (r.dataDeletionRan && !cfg.copier.External? ==>
            now.objs == Remaining(was.objs, t.guards)
            && r.deletedObjects == |Doomed(was.objs, t.guards, false)| + |Doomed(was.objs, t.guards, true)|)
  }

  /** What an undisturbed prune reports. */
  function Report(t: Target, s: Source, cfg: Settings, now: nat): PruneReport
    requires s.head in s.hist
  {
    if cfg.keep.None? || t.manifests == map[] then NOTHING_PRUNED
    else
      var kept := Kept(t.manifests, cfg.keep.value, now);
      var g := GuardsFor(t.manifests, s, cfg, now);
      PruneReport(|kept|, |t.manifests.Keys - kept|, |Doomed(t.objs, g, false)| + |Doomed(t.objs, g, true)|, true)
  }

  /** `prune_at`: the manifests first, in ascending order, then data objects. */
  method PruneAt(w: Stores, now: nat) returns (r: Fetch<PruneReport>, ghost trace: Trace)
    requires w.Valid() && now <= w.st.src.now
    modifies w
    ensures w.Valid() && Shrinks(old(w.st), w.st) && !r.Missing?
    ensures Between(old(w.st.src), trace, w.st.src)
    ensures Accounted(old(w.st.dst), trace, w.st.dst)
    ensures r.Found? ==> CarriedOut(old(w.st.dst), w.st.dst, w.cfg, now, r.value, trace)
    ensures Exact(trace) && AllKnown(trace, w.cfg.copier.External?)
    ensures forall o | o in old(w.st.dst.objs) && now - old(w.st.dst.objs)[o] <= w.cfg.minAge :: o in w.st.dst.objs
    ensures trace.pins.Some? ==> forall c, o | c in trace.pins.value && c.name == w.cfg.pinName
              && o in old(w.st.dst.objs) && old(w.st.dst.objs)[o] >= c.created - w.cfg.minAge :: o in w.st.dst.objs
    ensures PinsBetween(old(w.st.src), trace.pins, w.st.src)
    ensures old(w.Quiet()) ==> r.Found? && w.Quiet()
    ensures old(w.Quiet()) && old(w.st.src).head in old(w.st.src).hist ==>
              && w.st == old(w.st).(dst := Pruned(old(w.st.dst), old(w.st.src), w.cfg, now))
              && r.value == Report(old(w.st.dst), old(w.st.src), w.cfg, now)
    ensures old(w.Quiet()) && old(w.st.src).head in old(w.st.src).hist ==>
              LeavesExactly(old(w.st.dst), old(w.st.src), w.cfg, now, w.st.dst)
  {
    hide *;
    ghost var start := w.st;
    NothingShrunk(w.st, w.cfg);
    NoTrace(w.st.src);
    QuietExactly(start, w.cfg, now);
    trace := Trace(w.st.src, w.st.src, {}, NO_GUARDS, None);
    NothingGone(start, start, w.cfg, now, trace);
    if w.cfg.keep.None? {
      PrunesNothing(w.st, w.cfg, now);
      return Found(NOTHING_PRUNED), trace;
    }
    var survey, first, read, pins := Survey(w, w.cfg.keep.value, now);
    EnvIsShrinking(start, w.st);
    NothingGone(start, w.st, w.cfg, now, trace);
    if survey.Failed? { return Failed, trace; }
    if survey.Missing? {
      PrunesNothing(w.st, w.cfg, now);
      return Found(NOTHING_PRUNED), trace;
    }
    ghost var surveyed := w.st;
    r, trace := Sweep(w, survey.value, first, read);
    ShrinksTrans(start, surveyed, w.st, w.cfg);
    SweptBetween(start, surveyed, w.st, w.cfg, survey.value, trace);
    SweepCarriesOut(start, surveyed, w.st, w.cfg, now, survey.value, r, trace);
    QuietSweep(surveyed, w.cfg, now, survey.value);
    BothOld(start.dst.objs, Doomed(survey.value.compacted, survey.value.guards, false),
            Doomed(survey.value.wals, survey.value.guards, true), trace.deleted, pins, w.cfg, now);
    TraceWithPins(start, w.st, w.cfg, now, r, trace, pins);
    PinsLast(start, surveyed, w.st, w.cfg, pins);
    trace := trace.(pins := pins);
    YoungStay(start.dst, trace, w.st.dst, w.cfg, now);
  }

  /** The deletions of a plan. An unreadable source or kept manifest stops after the
      manifests. */
  method Sweep(w: Stores, p: Plan, ghost first: Source, ghost read: Source)
    returns (r: Fetch<PruneReport>, ghost trace: Trace)
    requires w.Valid() && Fits(w.st, w.cfg, p) && Grounded(p, first, read, w.cfg.copier.External?)
    modifies w
    ensures w.Valid() && Shrinks(old(w.st), w.st) && !r.Missing?
    ensures trace.first == first && trace.read == read && trace.guards == p.guards
    ensures Accounted(old(w.st.dst), trace, w.st.dst)
    ensures r.Found? ==> SweptBy(old(w.st.dst), w.st.dst, p, w.cfg.copier.External?, r.value, trace)
    ensures trace.deleted != {} ==> p.dataDeletion
    ensures trace.deleted <= Doomed(p.compacted, p.guards, false) + Doomed(p.wals, p.guards, true)
    ensures Exact(trace) && AllKnown(trace, w.cfg.copier.External?)
    ensures old(w.Quiet()) ==> r.Found? && w.Quiet()
    ensures old(w.Quiet()) && p.dataDeletion ==>
              w.st == old(w.st).(dst := Swept(old(w.st.dst), p)) && r.value == SweepReport(p)
  {
    hide *;
    ghost var start := w.st;
    NoTrace(first);
    trace := Trace(first, read, {}, p.guards, None);
    StillAccounted(start.dst, w.st.dst, trace, {});
    PlanCovers(w.st, w.cfg, p);
    var ok, manifests := DropManifests(w, p.listed, p.kept);
    StillAccounted(start.dst, w.st.dst, trace, {});
    if !ok { return Failed, trace; }
    var report := PruneReport(|p.kept|, manifests, 0, p.dataDeletion);
    if !p.dataDeletion {
      ManifestsSwept(start.dst, w.st.dst, p, w.cfg.copier.External?, report, trace);
      return Found(report), trace;
    }
    GuardsStillFit(start, w.st, w.cfg, p);
    ghost var dropped := w.st;
    var compacted, wals;
    ghost var deleted;
    ok, compacted, deleted := DropObjects(w, p.compacted, p.guards, false);
    ShrinksTrans(start, dropped, w.st, w.cfg);
    TraceGrows(trace, p, w.cfg.copier.External?, deleted, false);
    MoreAccounted(start.dst, dropped.dst, w.st.dst, trace, deleted);
    trace := trace.(deleted := {} + deleted);
    if !ok { return Failed, trace; }
    FitStays(dropped, w.st, p.guards);
    ghost var half := w.st;
    ok, wals, deleted := DropObjects(w, p.wals, p.guards, true);
    ShrinksTrans(start, half, w.st, w.cfg);
    TraceGrows(trace, p, w.cfg.copier.External?, deleted, true);
    MoreAccounted(start.dst, half.dst, w.st.dst, trace, deleted);
    trace := trace.(deleted := trace.deleted + deleted);
    if !ok { return Failed, trace; }
    SweptBoth(start.dst, p);
    report := report.(deletedObjects := compacted + wals);
    AllSwept(start.dst, dropped.dst, half.dst, w.st.dst, p, w.cfg.copier.External?, report, trace);
    return Found(report), trace;
  }

  /** The target once a plan has been carried out. */
  function Swept(t: Target, p: Plan): Target {
    Target(t.manifests - (p.listed - p.kept),
           t.objs - Doomed(p.compacted, p.guards, false) - Doomed(p.wals, p.guards, true))
  }

  function SweepReport(p: Plan): PruneReport {
    PruneReport(|p.kept|, |p.listed - p.kept|,
                |Doomed(p.compacted, p.guards, false)| + |Doomed(p.wals, p.guards, true)|, true)
  }

  lemma SweptBoth(t: Target, p: Plan)
    requires p.dataDeletion
    ensures Swept(t, p) == Target(t.manifests - (p.listed - p.kept),
              t.objs - Doomed(p.compacted, p.guards, false) - Doomed(p.wals, p.guards, true))
    ensures SweepReport(p) == PruneReport(|p.kept|, |p.listed - p.kept|,
              |Doomed(p.compacted, p.guards, false)| + |Doomed(p.wals, p.guards, true)|, p.dataDeletion)
  {
  }

  /** What a sweep that went through has done by its plan. */
  ghost predicate SweptBy(was: Target, now: Target, p: Plan, external: bool, r: PruneReport, t: Trace) {
    && now.manifests == was.manifests - (p.listed - p.kept)
    && r.keptManifests == |p.kept| && r.deletedManifests == |p.listed - p.kept|
    && r.dataDeletionRan == p.dataDeletion
    && (!p.dataDeletion ==> t.deleted == {} && r.deletedObjects == 0)
    && (p.dataDeletion && !external ==>
          now.objs == was.objs - Doomed(p.compacted, p.guards, false) - Doomed(p.wals, p.guards, true)
          && r.deletedObjects == |Doomed(p.compacted, p.guards, false)| + |Doomed(p.wals, p.guards, true)|)
  }

  lemma StillAccounted(a: Target, b: Target, t: Trace, more: set<DataObject>)
    requires a.objs.Keys - more <= b.objs.Keys
    ensures Accounted(a, t.(deleted := t.deleted + more), b)
    ensures more == {} ==> Accounted(a, t, b)
  {
  }

  lemma MoreAccounted(a: Target, b: Target, c: Target, t: Trace, more: set<DataObject>)
    requires Accounted(a, t, b) && b.objs.Keys - more <= c.objs.Keys
    ensures Accounted(a, t.(deleted := t.deleted + more), c)
    ensures t.deleted == {} ==> Accounted(a, t.(deleted := {} + more), c)
  {
  }

  lemma ManifestsSwept(was: Target, now: Target, p: Plan, external: bool, r: PruneReport, t: Trace)
    requires now.manifests == was.manifests - (p.listed - p.kept) && !p.dataDeletion && t.deleted == {}
    requires r == PruneReport(|p.kept|, |p.listed - p.kept|, 0, p.dataDeletion)
    ensures SweptBy(was, now, p, external, r, t)
  {
  }

  lemma AllSwept(was: Target, dropped: Target, half: Target, now: Target, p: Plan, external: bool,
                 r: PruneReport, t: Trace)
    requires p.dataDeletion && dropped.manifests == was.manifests - (p.listed - p.kept)
    requires half.manifests == dropped.manifests && now.manifests == half.manifests
    requires !external ==> dropped.objs == was.objs
                           && half.objs == dropped.objs - Doomed(p.compacted, p.guards, false)
                           && now.objs == half.objs - Doomed(p.wals, p.guards, true)
    requires r == PruneReport(|p.kept|, |p.listed - p.kept|,
                              |Doomed(p.compacted, p.guards, false)| + |Doomed(p.wals, p.guards, true)|,
                              p.dataDeletion)
    ensures SweptBy(was, now, p, external, r, t)
  {
  }

  lemma NothingGone(a: State, b: State, cfg: Settings, now: nat, t: Trace)
    requires (EnvMoves(a, b) || a == b) && t.deleted == {}
    ensures Accounted(a.dst, t, b.dst) && a.dst.objs.Keys <= b.dst.objs.Keys
    ensures PinsBetween(a.src, None, b.src)
    ensures cfg.keep.None? || b.dst.manifests == map[] ==> CarriedOut(a.dst, b.dst, cfg, now, NOTHING_PRUNED, t)
  {
  }

  /** A plan drawn from the target, carried out. */
  lemma SweepCarriesOut(start: State, surveyed: State, end: State, cfg: Settings, now: nat, p: Plan,
                        r: Fetch<PruneReport>, t: Trace)
    requires Inv(start, cfg) && Inv(surveyed, cfg) && EnvMoves(start, surveyed) && DrawnFrom(p, start, cfg, now)
    requires surveyed.dst.manifests == start.dst.manifests && Fits(surveyed, cfg, p) && t.guards == p.guards
    requires Accounted(surveyed.dst, t, end.dst) && Grounded(p, t.first, t.read, cfg.copier.External?)
    requires r.Found? ==> SweptBy(surveyed.dst, end.dst, p, cfg.copier.External?, r.value, t)
    ensures Accounted(start.dst, t, end.dst)
    ensures r.Found? ==> CarriedOut(start.dst, end.dst, cfg, now, r.value, t)
  {
    hide Inv, Kept, Stays, Doomed, Remaining, OnlyKept, KeptObjects, Covers, Later, Spares, SourceOk, Known;
    if r.Found? {
      DropsUnkept(start.dst.manifests, p.kept);
      if !cfg.copier.External? {
        OnlyReplicatorsBring(start, surveyed, cfg);
        DropsDoomed(start.dst.objs, p.guards);
      }
    }
  }

  lemma TraceWithPins(start: State, end: State, cfg: Settings, now: nat, r: Fetch<PruneReport>, t: Trace,
                      pins: Option<seq<Checkpoint>>)
    requires Exact(t) && AllKnown(t, cfg.copier.External?) && Between(start.src, t, end.src)
    requires Accounted(start.dst, t, end.dst)
    requires r.Found? ==> CarriedOut(start.dst, end.dst, cfg, now, r.value, t)
    ensures Exact(t.(pins := pins)) && AllKnown(t.(pins := pins), cfg.copier.External?)
    ensures Between(start.src, t.(pins := pins), end.src) && Accounted(start.dst, t.(pins := pins), end.dst)
    ensures r.Found? ==> CarriedOut(start.dst, end.dst, cfg, now, r.value, t.(pins := pins))
  {
    hide Kept, KeptObjects, Remaining, Doomed, OnlyKept, InLiveClosure, Known, Spares, SourceOk, Later;
  }

  lemma PinsLast(start: State, surveyed: State, end: State, cfg: Settings, pins: Option<seq<Checkpoint>>)
    requires Inv(surveyed, cfg) && Inv(end, cfg) && Shrinks(surveyed, end) && PinsBetween(start.src, pins, surveyed.src)
    ensures PinsBetween(start.src, pins, end.src)
  {
    hide Later, ListsPins;
    if pins.Some? {
      var s :| SourceOk(s) && Later(start.src, s) && Later(s, surveyed.src) && ListsPins(s, pins.value);
      ShrinkingIsLater(surveyed, end);
      LaterTrans(s, surveyed.src, end.src);
    }
  }

  lemma ShrinkingIsLater(a: State, b: State)
    requires Shrinks(a, b)
    ensures Later(a.src, b.src)
  {
  }

  lemma NoTrace(s: Source)
    ensures forall read, g :: Exact(Trace(s, read, {}, g, None)) && AllKnown(Trace(s, read, {}, g, None), true)
                              && AllKnown(Trace(s, read, {}, g, None), false)
    ensures forall a, read, b, g :: Between(a, Trace(s, read, {}, g, None), b)
  {
  }

  lemma PlanCovers(st: State, cfg: Settings, p: Plan)
    requires Fits(st, cfg, p)
    ensures Covers(st, cfg, p.kept) && st.dst.manifests != map[]
  {
  }

  /** What is kept still has its objects guarded. */
  lemma {:induction false} GuardsStillFit(a: State, b: State, cfg: Settings, p: Plan)
    requires Inv(a, cfg) && Fits(a, cfg, p) && Shrinks(a, b)
    requires b.dst.manifests == a.dst.manifests - (p.listed - p.kept) && b.dst.manifests != map[]
    ensures GuardsFit(b, p.guards)
  {
    var h := MaxOf(a.dst.manifests.Keys);
    assert IsLatest(a.dst, h) && IsLatest(b.dst, h);
    assert forall k | IsLatest(b.dst, k) :: k == h;
  }

  lemma TraceGrows(t: Trace, p: Plan, external: bool, deleted: set<DataObject>, wals: bool)
    requires p.dataDeletion && Grounded(p, t.first, t.read, external)
    requires Exact(t) && AllKnown(t, external)
    requires deleted <= Doomed(if wals then p.wals else p.compacted, p.guards, wals)
    ensures Exact(t.(deleted := t.deleted + deleted))
    ensures AllKnown(t.(deleted := t.deleted + deleted), external)
    ensures t.deleted == {} ==> t.deleted + deleted == deleted
  {
    hide SourceOk, Later, InLiveClosure, Known;
    DoomedIsExact(t.first, t.read, p.guards, if wals then p.wals else p.compacted, wals);
    assert t.deleted == {} ==> t.deleted + deleted == deleted;
  }

  lemma SweptBetween(start: State, surveyed: State, end: State, cfg: Settings, p: Plan, t: Trace)
    requires Inv(surveyed, cfg) && Inv(end, cfg) && Shrinks(surveyed, end)
    requires Grounded(p, t.first, t.read, cfg.copier.External?) && (t.deleted != {} ==> p.dataDeletion)
    requires Later(start.src, t.first) && Later(t.first, t.read) && Later(t.read, surveyed.src)
    ensures Between(start.src, t, end.src)
  {
    if t.deleted != {} {
      LaterTrans(t.read, surveyed.src, end.src);
    }
  }

  lemma PrunesNothing(st: State, cfg: Settings, now: nat)
    requires cfg.keep.None? || st.dst.manifests == map[]
    ensures st.src.head in st.src.hist ==>
              Pruned(st.dst, st.src, cfg, now) == st.dst && Report(st.dst, st.src, cfg, now) == NOTHING_PRUNED
    ensures st.(dst := st.dst) == st
  {
  }

  lemma DropsUnkept(ms: map<nat, Stored>, kept: set<nat>)
    ensures ms - (ms.Keys - kept) == OnlyKept(ms, kept)
  {
  }

  lemma DropsDoomed(objs: map<DataObject, nat>, g: Guards)
    ensures objs - Doomed(objs, g, false) - Doomed(objs, g, true) == Remaining(objs, g)
  {
    hide Stays;
  }

  lemma QuietSweep(a: State, cfg: Settings, now: nat, p: Plan)
    requires Fits(a, cfg, p) && cfg.keep.Some?
    ensures a.src.head in a.src.hist && PlansFor(p, a, cfg, now) ==>
              Swept(a.dst, p) == Pruned(a.dst, a.src, cfg, now) && SweepReport(p) == Report(a.dst, a.src, cfg, now)
    ensures a.src.head in a.src.hist && PlansFor(p, a, cfg, now) ==> p.dataDeletion
  {
    hide Kept, GuardsFor, Covers, Doomed, Remaining, OnlyKept, KeptObjects;
    DropsUnkept(a.dst.manifests, p.kept);
    DropsDoomed(a.dst.objs, p.guards);
  }

  /* What an undisturbed prune leaves, place by place. */

  /** The highest manifest, or younger than `keep`. */
  ghost predicate IsPoint(t: Target, keep: nat, now: nat, i: nat) {
    i in t.manifests && ((forall j | j in t.manifests :: j <= i) || now - t.manifests[i].modified < keep)
  }

  /** Pinned by an entry, not yet expired, of one of those. */
  ghost predicate IsPinned(t: Target, keep: nat, now: nat, i: nat) {
    i in t.manifests && exists r, c :: IsPoint(t, keep, now, r) && c in t.manifests[r].body.checkpoints
                          && (c.expire.None? || now < c.expire.value) && c.manifestId == i
  }

  /** A reason to keep object `o`, which was written at `modified`. */
  ghost predicate Needed(t: Target, s: Source, cfg: Settings, now: nat, o: DataObject, modified: nat)
    requires cfg.keep.Some? && s.head in s.hist
  {
    || (o.Wal? && exists h :: IsLatest(t, h) && t.manifests[h].body.nextWal <= o.id)
    || (exists i :: (IsPoint(t, cfg.keep.value, now, i) || IsPinned(t, cfg.keep.value, now, i))
                    && o in Objects(t.manifests[i].body))
    || o in Objects(s.hist[s.head])
    || (exists c :: c in s.hist[s.head].checkpoints && c.manifestId in s.live && c.manifestId in s.hist
                    && o in Objects(s.hist[c.manifestId]))
    || now - modified <= cfg.minAge
    || (exists c :: c in s.hist[s.head].checkpoints && c.name == cfg.pinName && modified >= c.created - cfg.minAge)
  }

  /** Exactly what there is a reason to keep is there, as it was. */
  ghost predicate LeavesExactly(was: Target, s: Source, cfg: Settings, now: nat, after: Target)
    requires s.head in s.hist
  {
    if cfg.keep.None? || was.manifests == map[] then after == was
    else
      && (forall i :: i in after.manifests <==>
                        IsPoint(was, cfg.keep.value, now, i) || IsPinned(was, cfg.keep.value, now, i))
      && (forall i | i in after.manifests :: i in was.manifests && after.manifests[i] == was.manifests[i])
      && (forall o :: o in after.objs <==> o in was.objs && Needed(was, s, cfg, now, o, was.objs[o]))
      && (forall o | o in after.objs :: after.objs[o] == was.objs[o])
  }

  lemma KeptExactly(t: Target, keep: nat, now: nat)
    ensures forall i :: i in Kept(t.manifests, keep, now) <==> IsPoint(t, keep, now, i) || IsPinned(t, keep, now, i)
  {
    var points := RestorePoints(t.manifests, keep, now);
    forall i ensures i in points <==> IsPoint(t, keep, now, i) {}
    forall i ensures i in Support(t.manifests, points, now) <==> IsPinned(t, keep, now, i) {
      if IsPinned(t, keep, now, i) {
        var r, c :| IsPoint(t, keep, now, r) && c in t.manifests[r].body.checkpoints
                    && (c.expire.None? || now < c.expire.value) && c.manifestId == i;
        assert r in points && Live(c, now);
      }
    }
  }

  lemma StaysExactly(t: Target, s: Source, cfg: Settings, now: nat, o: DataObject, modified: nat)
    requires cfg.keep.Some? && t.manifests != map[] && s.head in s.hist
    ensures Stays(GuardsFor(t.manifests, s, cfg, now), o, modified) <==> Needed(t, s, cfg, now, o, modified)
  {
    KeptExactly(t, cfg.keep.value, now);
    hide Objects, Kept, IsPoint, IsPinned;
    var h := MaxOf(t.manifests.Keys);
    assert IsLatest(t, h) && forall k | IsLatest(t, k) :: k == h;
  }

  lemma {:induction false} PrunedExactly(t: Target, s: Source, cfg: Settings, now: nat)
    requires s.head in s.hist
    ensures LeavesExactly(t, s, cfg, now, Pruned(t, s, cfg, now))
  {
    if cfg.keep.Some? && t.manifests != map[] {
      KeptExactly(t, cfg.keep.value, now);
      forall o | o in t.objs
        ensures Stays(GuardsFor(t.manifests, s, cfg, now), o, t.objs[o]) <==> Needed(t, s, cfg, now, o, t.objs[o])
      {
        StaysExactly(t, s, cfg, now, o, t.objs[o]);
      }
      hide Stays, Needed, IsPoint, IsPinned, Kept;
    }
  }

  lemma QuietExactly(st: State, cfg: Settings, now: nat)
    ensures st.src.head in st.src.hist ==>
              LeavesExactly(st.dst, st.src, cfg, now, Pruned(st.dst, st.src, cfg, now))
  {
    if st.src.head in st.src.hist { PrunedExactly(st.dst, st.src, cfg, now); }
  }

  /** The report counts what is gone and what is left. */
  lemma {:induction false} ReportCounts(t: Target, s: Source, cfg: Settings, now: nat)
    requires s.head in s.hist && cfg.keep.Some? && t.manifests != map[]
    ensures var r, after := Report(t, s, cfg, now), Pruned(t, s, cfg, now);
              && r.keptManifests == |after.manifests| && r.dataDeletionRan
              && r.deletedManifests == |t.manifests| - |after.manifests|
              && r.deletedObjects == |t.objs| - |after.objs|
  {
    hide Stays, GuardsFor, Kept;
    var kept := Kept(t.manifests, cfg.keep.value, now);
    KeptListed(t.manifests, cfg.keep.value, now);
    assert OnlyKept(t.manifests, kept).Keys == kept;
    var g := GuardsFor(t.manifests, s, cfg, now);
    var left := Remaining(t.objs, g);
    var a, b := Doomed(t.objs, g, false), Doomed(t.objs, g, true);
    assert t.objs.Keys == left.Keys + a + b;
    assert left.Keys !! a && left.Keys !! b && a !! b;
  }

  /** `prune`: at the present time. */
  method PruneNow(w: Stores) returns (r: Fetch<PruneReport>, ghost trace: Trace)
    requires w.Valid()
    modifies w
    ensures w.Valid() && Shrinks(old(w.st), w.st) && !r.Missing?
    ensures Between(old(w.st.src), trace, w.st.src)
    ensures Accounted(old(w.st.dst), trace, w.st.dst)
    ensures r.Found? ==> CarriedOut(old(w.st.dst), w.st.dst, w.cfg, old(w.st.src.now), r.value, trace)
    ensures Exact(trace) && AllKnown(trace, w.cfg.copier.External?)
    ensures forall o | o in old(w.st.dst.objs) && old(w.st.src.now) - old(w.st.dst.objs)[o] <= w.cfg.minAge ::
              o in w.st.dst.objs
    ensures trace.pins.Some? ==> forall c, o | c in trace.pins.value && c.name == w.cfg.pinName
              && o in old(w.st.dst.objs) && old(w.st.dst.objs)[o] >= c.created - w.cfg.minAge :: o in w.st.dst.objs
    ensures PinsBetween(old(w.st.src), trace.pins, w.st.src)
    ensures old(w.Quiet()) ==> r.Found? && w.Quiet()
    ensures old(w.Quiet()) && old(w.st.src).head in old(w.st.src).hist ==>
              && w.st == old(w.st).(dst := Pruned(old(w.st.dst), old(w.st.src), w.cfg, old(w.st.src.now)))
              && r.value == Report(old(w.st.dst), old(w.st.src), w.cfg, old(w.st.src.now))
    ensures old(w.Quiet()) && old(w.st.src).head in old(w.st.src).hist ==>
              LeavesExactly(old(w.st.dst), old(w.st.src), w.cfg, old(w.st.src.now), w.st.dst)
  {
    r, trace := PruneAt(w, w.st.src.now);
  }

  /* What an undisturbed prune leaves. */

  lemma KeptHasLatest(ms: map<nat, Stored>, keep: nat, now: nat)
    requires ms != map[]
    ensures MaxOf(ms.Keys) in Kept(ms, keep, now) && Kept(ms, keep, now) <= ms.Keys
    ensures MaxOf(ms.Keys) in OnlyKept(ms, Kept(ms, keep, now))
    ensures MaxOf(OnlyKept(ms, Kept(ms, keep, now)).Keys) == MaxOf(ms.Keys)
  {
    var left := OnlyKept(ms, Kept(ms, keep, now));
    assert MaxOf(ms.Keys) in left;
    MaxOfIs(left.Keys, MaxOf(ms.Keys));
  }

  lemma PointsAgain(ms: map<nat, Stored>, kept: set<nat>, keep: nat, now: nat)
    requires ms != map[] && kept <= ms.Keys && RestorePoints(ms, keep, now) <= kept
    ensures RestorePoints(OnlyKept(ms, kept), keep, now) == RestorePoints(ms, keep, now)
  {
    var left := OnlyKept(ms, kept);
    var h := MaxOf(ms.Keys);
    assert h in RestorePoints(ms, keep, now) && h in left;
    forall i | i in RestorePoints(left, keep, now) ensures i in RestorePoints(ms, keep, now) {
      assert (forall j | j in left :: j <= i) ==> h <= i;
    }
  }

  lemma SupportAgain(ms: map<nat, Stored>, kept: set<nat>, points: set<nat>, now: nat)
    requires kept <= ms.Keys && points <= kept && Support(ms, points, now) <= kept
    ensures Support(OnlyKept(ms, kept), points, now) == Support(ms, points, now)
  {
    var left := OnlyKept(ms, kept);
    forall p | p in Support(ms, points, now) ensures p in Support(left, points, now) {
      var i, c :| i in points && i in ms && c in ms[i].body.checkpoints && Live(c, now)
                  && c.manifestId in ms && p == c.manifestId;
      assert left[i] == ms[i];
    }
    forall p | p in Support(left, points, now) ensures p in Support(ms, points, now) {
      var i, c :| i in points && i in left && c in left[i].body.checkpoints && Live(c, now)
                  && c.manifestId in left && p == c.manifestId;
      assert left[i] == ms[i];
    }
  }

  /** Choosing again among what was kept keeps all of it. */
  lemma KeptAgain(ms: map<nat, Stored>, keep: nat, now: nat)
    requires ms != map[]
    ensures Kept(OnlyKept(ms, Kept(ms, keep, now)), keep, now) == Kept(ms, keep, now)
  {
    hide RestorePoints, Support, OnlyKept;
    var kept, points := Kept(ms, keep, now), RestorePoints(ms, keep, now);
    KeptHasLatest(ms, keep, now);
    PointsAgain(ms, kept, keep, now);
    SupportAgain(ms, kept, points, now);
  }

  lemma ObjectsAgain(ms: map<nat, Stored>, kept: set<nat>)
    ensures KeptObjects(OnlyKept(ms, kept), kept) == KeptObjects(ms, kept)
  {
    var left := OnlyKept(ms, kept);
    forall o | o in KeptObjects(ms, kept) ensures o in KeptObjects(left, kept) {
      var i :| i in kept && i in ms && o in Objects(ms[i].body);
      assert i in left && left[i] == ms[i];
    }
    forall o | o in KeptObjects(left, kept) ensures o in KeptObjects(ms, kept) {
      var i :| i in kept && i in left && o in Objects(left[i].body);
      assert left[i] == ms[i];
    }
  }

  /** A second prune at the same time, of an unchanged source, deletes nothing. */
  lemma {:induction false} PruneIsIdempotent(t: Target, s: Source, cfg: Settings, now: nat)
    requires s.head in s.hist
    ensures Pruned(Pruned(t, s, cfg, now), s, cfg, now) == Pruned(t, s, cfg, now)
  {
    if cfg.keep.Some? && t.manifests != map[] {
      var kept := Kept(t.manifests, cfg.keep.value, now);
      var once := Pruned(t, s, cfg, now);
      KeptHasLatest(t.manifests, cfg.keep.value, now);
      KeptAgain(t.manifests, cfg.keep.value, now);
      ObjectsAgain(t.manifests, kept);
      assert MaxOf(t.manifests.Keys) in once.manifests;
      assert GuardsFor(once.manifests, s, cfg, now) == GuardsFor(t.manifests, s, cfg, now);
      KeptOnceMore(t.manifests, kept);
      RemainingAgain(t.objs, GuardsFor(t.manifests, s, cfg, now));
    }
  }

  /** The manifests an undisturbed prune leaves. */
  function PrunedManifests(ms: map<nat, Stored>, cfg: Settings, now: nat): map<nat, Stored> {
    if cfg.keep.None? || ms == map[] then ms else OnlyKept(ms, Kept(ms, cfg.keep.value, now))
  }

  lemma PrunedManifestsAre(t: Target, s: Source, cfg: Settings, now: nat)
    requires s.head in s.hist
    ensures Pruned(t, s, cfg, now).manifests == PrunedManifests(t.manifests, cfg, now)
  {
  }

  lemma PrunedManifestsAgain(ms: map<nat, Stored>, cfg: Settings, now: nat)
    ensures PrunedManifests(PrunedManifests(ms, cfg, now), cfg, now) == PrunedManifests(ms, cfg, now)
    ensures ms != map[] ==> PrunedManifests(ms, cfg, now) != map[]
    ensures forall i | i in PrunedManifests(ms, cfg, now) :: i in ms && PrunedManifests(ms, cfg, now)[i] == ms[i]
    ensures ms != map[] ==> MaxOf(ms.Keys) in PrunedManifests(ms, cfg, now)
  {
    if cfg.keep.Some? && ms != map[] {
      hide Kept;
      KeptHasLatest(ms, cfg.keep.value, now);
      KeptAgain(ms, cfg.keep.value, now);
      KeptOnceMore(ms, Kept(ms, cfg.keep.value, now));
    }
  }

  lemma KeptOnceMore(ms: map<nat, Stored>, kept: set<nat>)
    ensures OnlyKept(OnlyKept(ms, kept), kept) == OnlyKept(ms, kept)
  {
  }

  lemma RemainingAgain(objs: map<DataObject, nat>, g: Guards)
    ensures Remaining(Remaining(objs, g), g) == Remaining(objs, g)
  {
    hide Stays;
  }

  /** `a` has everything `b` has. */
  predicate Retains(a: Target, b: Target) {
    (forall i | i in b.manifests :: i in a.manifests && a.manifests[i] == b.manifests[i])
    && forall o | o in b.objs :: o in a.objs && a.objs[o] == b.objs[o]
  }

  predicate KeepsLonger(a: Option<nat>, b: Option<nat>) {
    a.None? || (b.Some? && b.value <= a.value)
  }

  /** A longer `keep` retains every manifest and every object a shorter one does; no
      `keep` at all retains everything. */
  lemma {:induction false} LongerKeepRetains(t: Target, s: Source, cfg: Settings, keep: Option<nat>, now: nat)
    requires s.head in s.hist && KeepsLonger(keep, cfg.keep)
    ensures Retains(Pruned(t, s, cfg.(keep := keep), now), Pruned(t, s, cfg, now))
  {
    if keep.Some? && t.manifests != map[] {
      var ms, more, less := t.manifests, keep.value, cfg.keep.value;
      assert RestorePoints(ms, less, now) <= RestorePoints(ms, more, now);
      forall p | p in Support(ms, RestorePoints(ms, less, now), now)
        ensures p in Support(ms, RestorePoints(ms, more, now), now)
      {
        var i, c :| i in RestorePoints(ms, less, now) && i in ms && c in ms[i].body.checkpoints
                    && Live(c, now) && c.manifestId in ms && p == c.manifestId;
        assert i in RestorePoints(ms, more, now);
      }
      assert Kept(ms, less, now) <= Kept(ms, more, now);
      assert KeptObjects(ms, Kept(ms, less, now)) <= KeptObjects(ms, Kept(ms, more, now)) by {
        hide Kept, Objects;
      }
    }
  }

  /** No prune lowers the target's highest manifest id, or changes that manifest. */
  lemma PruneKeepsHighest(t: Target, s: Source, cfg: Settings, now: nat)
    requires s.head in s.hist && t.manifests != map[]
    ensures var p := Pruned(t, s, cfg, now);
            p.manifests != map[] && MaxOf(p.manifests.Keys) == MaxOf(t.manifests.Keys)
            && p.manifests[MaxOf(t.manifests.Keys)] == t.manifests[MaxOf(t.manifests.Keys)]
  {
    if cfg.keep.Some? {
      KeptHasLatest(t.manifests, cfg.keep.value, now);
    }
  }

  /** Prune twice, undisturbed: the second run deletes nothing. */
  method PruneTwice(w: Stores) returns (again: PruneReport)
    requires w.Valid() && w.Quiet() && w.cfg.keep.Some? && w.st.dst.manifests != map[]
    modifies w
    ensures w.Valid() && w.st == old(w.st).(dst := w.st.dst) && w.st.src.head in w.st.src.hist
    ensures Pruned(w.st.dst, w.st.src, w.cfg, w.st.src.now) == w.st.dst
    ensures again.deletedManifests == 0 && again.deletedObjects == 0
  {
    hide Inv, Pruned, Report;
    ListsNow(w.st, w.cfg);
    assert w.st.src.head in w.st.src.hist by { HeadExists(w.st, w.cfg); }
    PruneIsIdempotent(w.st.dst, w.st.src, w.cfg, w.st.src.now);
    PruneKeepsHighest(w.st.dst, w.st.src, w.cfg, w.st.src.now);
    var _, _ := PruneNow(w);
    ghost var once := w.st;
    var second, _ := PruneNow(w);
    NothingLeftToDelete(once.dst, once.src, w.cfg, once.src.now);
    again := second.value;
  }

  /** A prune that changes nothing reports that it deleted nothing. */
  lemma NothingLeftToDelete(t: Target, s: Source, cfg: Settings, now: nat)
    requires s.head in s.hist && Pruned(t, s, cfg, now) == t
    ensures Report(t, s, cfg, now).deletedManifests == 0 && Report(t, s, cfg, now).deletedObjects == 0
  {
    if cfg.keep.Some? && t.manifests != map[] {
      var kept := Kept(t.manifests, cfg.keep.value, now);
      var g := GuardsFor(t.manifests, s, cfg, now);
      assert OnlyKept(t.manifests, kept).Keys <= kept;
      assert t.manifests.Keys - kept == {};
      forall o | o in t.objs ensures Stays(g, o, t.objs[o]) {
        assert o in Remaining(t.objs, g);
      }
      assert Doomed(t.objs, g, false) == {} == Doomed(t.objs, g, true);
    }
  }

  /* Where guard 1 alone is not enough. */

  /** The head with one more level-0 table. */
  function WithTable(s: Source, o: DataObject): Manifest
    requires s.head in s.hist
  {
    var prev := s.hist[s.head];
    prev.(id := s.head + 1, root := prev.root.(l0 := prev.root.l0 + [o]))
  }

  lemma TableSucceeds(s: Source, o: DataObject)
    requires SourceOk(s) && Born(s) && o.Compacted? && !Referenced(s, o) && o in s.objs
    ensures Successor(s, WithTable(s, o)) && o in Objects(WithTable(s, o))
  {
    var prev, m := s.hist[s.head], WithTable(s, o);
    assert Sound(s, s.head);
    assert Objects(m) == Objects(prev) + {o} by {
      assert forall x :: x in m.root.l0 <==> x in prev.root.l0 || x == o;
    }
    forall x | x in m.checkpoints ensures EntryFollows(s, x, m.id) {
      assert Carries(x, x, s.now);
    }
  }

  /** The source uploads a table and commits a manifest that references it. */
  lemma UnknownMayArrive(s: Source, o: DataObject) returns (t: Source)
    requires SourceOk(s) && Born(s) && o.Compacted? && !Referenced(s, o)
    ensures SourceOk(t) && Later(s, t) && InLiveClosure(t, o)
  {
    var up := Apply(s, Upload(o));
    ActionKeepsOk(s, Upload(o));
    TableSucceeds(up, o);
    t := Apply(up, Commit(WithTable(up, o)));
    ActionKeepsOk(up, Commit(WithTable(up, o)));
    LaterTrans(s, up, t);
    assert t.head in Members(t.hist[t.head], t.now);
  }

  /** For a table that was not spared, guard 1 is exact precisely when some manifest
      had referenced it: otherwise a later head may. Only an outside replicator can
      bring such a table to the target. */
  lemma ExactPreciselyForKnown(s: Source, spared: set<DataObject>, o: DataObject)
    requires SourceOk(s) && Born(s) && Spares(s, s, spared) && o.Compacted? && o !in spared
    ensures Known(s, o) <==> forall t | SourceOk(t) && Later(s, t) :: !InLiveClosure(t, o)
  {
    if Known(s, o) {
      forall t | SourceOk(t) && Later(s, t) ensures !InLiveClosure(t, o) {
        GuardIsExact(s, s, spared, t, o);
      }
    } else {
      var t := UnknownMayArrive(s, o);
    }
  }

  /** A table that has been referenced is in a later live closure only if it is in the
      live closure now. */
  lemma StillInClosure(b: Source, t: Source, o: DataObject)
    requires SourceOk(b) && SourceOk(t) && Later(b, t) && Born(b) && o.Compacted? && Referenced(b, o)
    requires InLiveClosure(t, o)
    ensures InLiveClosure(b, o)
  {
    hide NewPinsAreNew, Objects, Protected;
    assert Sound(b, b.head);
    var k :| k in Members(t.hist[t.head], t.now) && k in t.hist && o in Objects(t.hist[k]);
    if b.head <= k {
      KnownObject(b, t, k, o);
      assert b.head in Members(b.hist[b.head], b.now);
    } else {
      var c, d := OldPinListed(b, t, k);
      assert NoRevival(b, t) && Live(c, b.now);
      assert k in LivePins(b.hist[b.head], b.now) && k in Members(b.hist[b.head], b.now);
    }
  }

  /** The same for reads the source moves under: a table that was not spared is in no
      live closure from the end of the reads on exactly when it was known when the head
      was read, or has been referenced since and is out of the live closure again. */
  lemma ExactWhileReading(a: Source, b: Source, spared: set<DataObject>, o: DataObject)
    requires SourceOk(a) && SourceOk(b) && Born(a) && Spares(a, b, spared) && o.Compacted? && o !in spared
    ensures (Known(a, o) || (Referenced(b, o) && !InLiveClosure(b, o))) <==>
            forall t | SourceOk(t) && Later(b, t) :: !InLiveClosure(t, o)
  {
    hide Objects, InLiveClosure;
    if Known(a, o) {
      forall t | SourceOk(t) && Later(b, t) ensures !InLiveClosure(t, o) {
        GuardIsExact(a, b, spared, t, o);
      }
    } else if !Referenced(b, o) {
      var t := UnknownMayArrive(b, o);
    } else if InLiveClosure(b, o) {
      LaterRefl(b);
    } else {
      forall t | SourceOk(t) && Later(b, t) ensures !InLiveClosure(t, o) {
        if InLiveClosure(t, o) { StillInClosure(b, t, o); }
      }
    }
  }

  const BARE := Manifest(1, Tree([], []), [], 0, 1, [], false, false, 0)

  const EARLY := Compacted("early")

  /** A source that has uploaded a table and not yet committed it, and a target an
      outside replicator brought that table to at time 0. */
  const REPLICATED := State(
    Source(map[1 := BARE], 1, {1}, {EARLY}, 10, 1),
    Target(map[1 := Stored(BARE, 0)], map[EARLY := 0]), map[], 0, None, 0, 0, 1)

  lemma ReplicatedIsReachable(cfg: Settings)
    requires cfg.copier.External?
    ensures Inv(REPLICATED, cfg)
  {
    hide Inv, SourceOk, Later, Objects, Held, PointOpen, TailOk;
    EmptyStateOk(cfg);
    var a := AfterCommit(cfg);
    var b := ApplyEnv(a, cfg, AtSource(Upload(EARLY)));
    EnvKeepsInv(a, cfg, AtSource(Upload(EARLY)));
    assert b == a.(src := a.src.(objs := {EARLY}));
    var c := ApplyEnv(b, cfg, Replicate(EARLY));
    EnvKeepsInv(b, cfg, Replicate(EARLY));
    var d := ApplyEnv(c, cfg, AtSource(Tick(10)));
    EnvKeepsInv(c, cfg, AtSource(Tick(10)));
    assert d == REPLICATED;
  }

  lemma AfterCommit(cfg: Settings) returns (st: State)
    ensures Inv(st, cfg)
    ensures st == State(Source(map[1 := BARE], 1, {1}, {}, 0, 1), Target(map[1 := Stored(BARE, 0)], map[]),
                        map[], 0, None, 0, 0, 0)
    ensures !Referenced(st.src, EARLY)
  {
    EmptyStateOk(cfg);
    BareIsEmpty();
    assert Successor(EmptySource, BARE);
    var a := ApplyEnv(EmptyState, cfg, AtSource(Commit(BARE)));
    EnvKeepsInv(EmptyState, cfg, AtSource(Commit(BARE)));
    ManifestArrives(a, cfg, 1, false);
    st := WithManifest(a, 1, false);
  }

  lemma BareIsEmpty()
    ensures Objects(BARE) == {}
  {
    EmptyWindow(0, 1);
  }

  /** The table is older than `minAge`, so the prune takes it; the source commits it
      next. */
  lemma ReplicatedTableIsPruned(cfg: Settings)
    requires cfg.copier.External? && cfg.keep.Some? && cfg.minAge < 10
    ensures Inv(REPLICATED, cfg)
    ensures EARLY !in Pruned(REPLICATED.dst, REPLICATED.src, cfg, REPLICATED.src.now).objs
    ensures exists t :: SourceOk(t) && Later(REPLICATED.src, t) && InLiveClosure(t, EARLY)
  {
    ReplicatedIsReachable(cfg);
    BareIsEmpty();
    var s := REPLICATED.src;
    assert !Referenced(s, EARLY);
    var t := UnknownMayArrive(s, EARLY);
    var ms := REPLICATED.dst.manifests;
    assert forall i | i in ms :: i == 1;
    var g := GuardsFor(ms, s, cfg, s.now);
    assert SparedBy(s) == {};
    assert forall o | o in g.kept :: o in Objects(BARE);
  }
}
