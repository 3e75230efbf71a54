/** The sync pass (src/mirror/pass.rs): watermark, read, diff, pin and copy,
    commit, unpin. */
module Pass {
  import opened Wrappers
  import opened Layout
  import opened SourceDb
  import opened MirrorState
  import opened World

  const MAX_RESTARTS := 5

  datatype MirrorError =
    | StoreError
    | NotADatabase
    | ExcludedSource
    | Diverged(destId: nat, sourceId: nat)
    | Stalled
    | RcloneError

  datatype PassOutcome = PassOutcome(
    head: nat, nextWal: nat, committed: bool, manifestsCommitted: nat, copied: nat)

  /** `Again` restarts the pass: the world moved underneath it. */
  datatype PassResult<+T> = Done(value: T) | Again | Fatal(error: MirrorError)

  /** The manifests decoded so far; bodies are immutable, so entries never expire. */
  class ManifestCache {
    var byId: map<nat, Manifest>

    constructor ()
      ensures byId == map[]
    {
      byId := map[];
    }

    /** Every entry is the body the source committed under that id. */
    ghost predicate Agrees(s: Source)
      reads this
    {
      forall i | i in byId :: i in s.hist && byId[i] == s.hist[i]
    }

    /** Manifest `id` of the source, served from the cache when it was read before,
        also after the source has deleted it. */
    method Read(w: Stores, id: nat) returns (r: Fetch<Manifest>)
      requires w.Valid() && Agrees(w.st.src)
      modifies this, w
      ensures w.Valid() && EnvMoves(old(w.st), w.st) && Agrees(w.st.src)
      ensures old(w.Quiet()) ==> w.Quiet() && w.st == old(w.st) && !r.Failed?
      ensures r.Found? ==> id in w.st.src.hist && r.value == w.st.src.hist[id] && r.value.id == id
      ensures r.Missing? ==> id !in w.st.src.live
    {
      if id in byId {
        LaterRefl(w.st.src);
        assert Sound(w.st.src, id);
        return Found(byId[id]);
      }
      r := w.ReadSource(id);
      if r.Found? {
        byId := byId[id := r.value];
      }
    }
  }

  /* The diff. */

  /** What a pass for one head has to bring over. `manifests` is the head's closure
      as judged at time `at`; `candidates` its objects not proven present;
      `present` the closure manifests the target is known to hold. */
  datatype Diff = Diff(
    at: nat, manifests: map<nat, set<DataObject>>, candidates: set<DataObject>, present: set<nat>)

  function LiveIds(m: Manifest, at: nat): set<nat> {
    set c | c in m.checkpoints && Live(c, at) :: c.id
  }

  /** The manifests the watermark's own entries vouch for. */
  function VouchedPins(head: Manifest, w: Manifest, at: nat): set<nat> {
    set c | c in w.checkpoints && Live(c, at) && c.id in LiveIds(head, at)
            && c.manifestId in Members(head, at) :: c.manifestId
  }

  function Vouched(head: Manifest, watermark: Option<Manifest>, at: nat): set<nat> {
    match watermark
    case None => {}
    case Some(w) => {w.id} + VouchedPins(head, w, at)
  }

  /** The objects of the manifests `ids`, read from the history. */
  ghost predicate InSome(h: map<nat, Manifest>, ids: set<nat>, o: DataObject) {
    exists i | i in ids && i in h :: o in Objects(h[i])
  }

  ghost predicate IsClosure(h: map<nat, Manifest>, head: Manifest, at: nat, c: map<nat, set<DataObject>>) {
    c.Keys == Members(head, at) && forall k | k in c :: k in h && c[k] == Objects(h[k])
  }

  ghost predicate IsDiff(h: map<nat, Manifest>, head: Manifest, watermark: Option<Manifest>, d: Diff) {
    && IsClosure(h, head, d.at, d.manifests)
    && d.present == Vouched(head, watermark, d.at)
    && forall o :: o in d.candidates <==>
         InSome(h, d.manifests.Keys, o) && !InSome(h, d.present, o)
  }

  predicate AtTarget(st: State, m: Manifest) {
    m.id in st.dst.manifests && m.id in st.src.hist && m == st.src.hist[m.id]
  }

  /** The watermark's closure is at the target as far as head `head` shares it. */
  ghost predicate Covered(st: State, head: Manifest, watermark: Option<Manifest>) {
    watermark.Some? ==>
      var w := watermark.value;
      && AtTarget(st, w)
      && forall c | c in w.checkpoints && Live(c, st.src.now) && c.id in Ids(head) ::
           c.manifestId in st.dst.manifests
  }

  /** Completeness covers the watermark for whatever head the source has now. */
  lemma HeadCovered(st: State, head: Manifest, watermark: Option<Manifest>)
    requires (forall i :: Held(st, i)) && st.src.head in st.src.hist
    requires Ids(head) <= Ids(st.src.hist[st.src.head])
    requires watermark.Some? ==> AtTarget(st, watermark.value)
    ensures Covered(st, head, watermark)
  {
    if watermark.Some? {
      assert Held(st, watermark.value.id);
    }
  }

  /** A vouched manifest is at the target with its objects. */
  lemma VouchedPresent(st: State, head: Manifest, watermark: Option<Manifest>, at: nat)
    requires (forall i :: Held(st, i)) && Covered(st, head, watermark) && at == st.src.now
    ensures forall p | p in Vouched(head, watermark, at) :: PresentWhole(st, p)
  {
    if watermark.Some? {
      forall p | p in Vouched(head, watermark, at)
        ensures PresentWhole(st, p)
      {
        assert Held(st, p);
        if p != watermark.value.id {
          var c :| c in watermark.value.checkpoints && Live(c, at) && c.id in LiveIds(head, at)
                   && c.manifestId == p;
          var e :| e in head.checkpoints && Live(e, at) && e.id == c.id;
          IdsMember(head, e);
        }
      }
    }
  }

  /** The closure as far as the first `n` entries have been followed. */
  ghost predicate ClosureUpTo(h: map<nat, Manifest>, head: Manifest, at: nat, n: nat,
                              c: map<nat, set<DataObject>>)
    requires n <= |head.checkpoints|
  {
    && c.Keys == {head.id} + (set e | e in head.checkpoints[..n] && Live(e, at) :: e.manifestId)
    && forall k | k in c :: k in h && c[k] == Objects(h[k])
  }

  lemma ClosureStarts(h: map<nat, Manifest>, head: Manifest, at: nat)
    requires head.id in h && h[head.id] == head
    ensures ClosureUpTo(h, head, at, 0, map[head.id := Objects(head)])
  {
  }

  lemma ClosureSkips(h: map<nat, Manifest>, head: Manifest, at: nat, n: nat, c: map<nat, set<DataObject>>)
    requires n < |head.checkpoints| && ClosureUpTo(h, head, at, n, c)
    requires !Live(head.checkpoints[n], at) || head.checkpoints[n].manifestId == head.id
    ensures ClosureUpTo(h, head, at, n + 1, c)
  {
    var cps := head.checkpoints;
    assert cps[..n + 1] == cps[..n] + [cps[n]];
  }

  lemma ClosureExtends(a: State, b: State, head: Manifest, at: nat, n: nat,
                       c: map<nat, set<DataObject>>, m: Manifest)
    requires n < |head.checkpoints| && EnvMoves(a, b) && ClosureUpTo(a.src.hist, head, at, n, c)
    requires Live(head.checkpoints[n], at)
    requires head.checkpoints[n].manifestId in b.src.hist && m == b.src.hist[head.checkpoints[n].manifestId]
    ensures ClosureUpTo(b.src.hist, head, at, n + 1, c[head.checkpoints[n].manifestId := Objects(m)])
  {
    hide Objects;
    var cps := head.checkpoints;
    assert cps[..n + 1] == cps[..n] + [cps[n]];
  }

  lemma ClosureEnds(h: map<nat, Manifest>, head: Manifest, at: nat, c: map<nat, set<DataObject>>)
    requires ClosureUpTo(h, head, at, |head.checkpoints|, c)
    ensures IsClosure(h, head, at, c)
  {
    var cps := head.checkpoints;
    assert cps[..|cps|] == cps;
  }

  lemma EntryPins(head: Manifest, at: nat, n: nat)
    requires n < |head.checkpoints| && Live(head.checkpoints[n], at)
    ensures head.checkpoints[n].manifestId in LivePins(head, at)
  {
  }

  /** `closure`: the head and each manifest a live entry of it pins. `Missing`
      means such a manifest is already gone at the source. */
  method ClosureOf(w: Stores, cache: ManifestCache, head: Manifest, at: nat)
    returns (r: Fetch<map<nat, set<DataObject>>>)
    requires w.Valid() && cache.Agrees(w.st.src)
    requires head.id in w.st.src.hist && head == w.st.src.hist[head.id]
    modifies w, cache
    ensures w.Valid() && cache.Agrees(w.st.src) && EnvMoves(old(w.st), w.st)
    ensures old(w.Quiet()) ==> w.Quiet() && w.st == old(w.st) && !r.Failed?
    ensures r.Found? ==> IsClosure(w.st.src.hist, head, at, r.value)
    ensures r.Missing? ==> exists p | p in LivePins(head, at) :: p !in w.st.src.live
  {
    hide *;
    ghost var start := w.st;
    var objects := Layout.ManifestObjects(head);
    var manifests: map<nat, set<DataObject>> := map[head.id := objects];
    ClosureStarts(w.st.src.hist, head, at);
    NothingMoved(w.st, w.cfg);
    for k := 0 to |head.checkpoints|
      invariant w.Valid() && cache.Agrees(w.st.src) && EnvMoves(start, w.st)
      invariant old(w.Quiet()) ==> w.Quiet() && w.st == start
      invariant ClosureUpTo(w.st.src.hist, head, at, k, manifests)
    {
      var cp := head.checkpoints[k];
      if !Live(cp, at) || cp.manifestId == head.id {
        ClosureSkips(w.st.src.hist, head, at, k, manifests);
        continue;
      }
      EntryPins(head, at, k);
      ghost var before := w.st;
      var pinned := cache.Read(w, cp.manifestId);
      EnvMovesTrans(start, before, w.st, w.cfg);
      if pinned.Failed? { return Failed; }
      if pinned.Missing? { return Missing; }
      ClosureExtends(before, w.st, head, at, k, manifests, pinned.value);
      objects := Layout.ManifestObjects(pinned.value);
      manifests := manifests[cp.manifestId := objects];
    }
    ClosureEnds(w.st.src.hist, head, at, manifests);
    return Found(manifests);
  }

  /** The union of the members' objects. */
  method UnionOf(manifests: map<nat, set<DataObject>>) returns (all: set<DataObject>)
    ensures forall o :: o in all <==> exists i | i in manifests :: o in manifests[i]
  {
    all := {};
    var rest := manifests.Keys;
    while rest != {}
      invariant rest <= manifests.Keys
      invariant forall o :: o in all <==> exists i | i in manifests && i !in rest :: o in manifests[i]
    {
      var i: nat :| i in rest;
      all := all + manifests[i];
      rest := rest - {i};
    }
  }

  /** What the watermark proves present: its own objects, and those of manifests
      pinned by checkpoints live in both the watermark and the head. */
  method Proven(head: Manifest, watermark: Option<Manifest>, at: nat,
                manifests: map<nat, set<DataObject>>, ghost h: map<nat, Manifest>)
    returns (proven: set<DataObject>, present: set<nat>)
    requires IsClosure(h, head, at, manifests)
    requires watermark.Some? ==> watermark.value.id in h && h[watermark.value.id] == watermark.value
    ensures present == Vouched(head, watermark, at)
    ensures forall o :: o in proven <==> InSome(h, present, o)
    ensures forall p :: p in present <==>
              watermark.Some? && (p == watermark.value.id || SharedPin(head, watermark.value, at, p))
  {
    hide Objects;
    proven, present := {}, {};
    if watermark.None? { return; }
    var w := watermark.value;
    proven := Layout.ManifestObjects(w);
    present := {w.id};
    var cps := w.checkpoints;
    var liveInHead := LiveIds(head, at);
    for k := 0 to |cps|
      invariant present == {w.id} + set c | c in cps[..k] && Live(c, at) && c.id in liveInHead
                                            && c.manifestId in Members(head, at) :: c.manifestId
      invariant forall o :: o in proven <==> InSome(h, present, o)
    {
      var cp := cps[k];
      assert cps[..k + 1] == cps[..k] + [cp];
      if !Live(cp, at) || cp.id !in liveInHead || cp.manifestId !in manifests { continue; }
      ghost var was, before := present, proven;
      proven := proven + manifests[cp.manifestId];
      present := present + {cp.manifestId};
      forall o
        ensures o in proven <==> InSome(h, present, o)
      {
        assert InSome(h, present, o) <==> InSome(h, was, o) || o in Objects(h[cp.manifestId]);
      }
    }
    assert cps[..|cps|] == cps;
    VouchedAre(head, w, at);
  }

  /** A checkpoint that is live in both manifests pins `p`, which is in the closure. */
  ghost predicate SharedPin(head: Manifest, w: Manifest, at: nat, p: nat) {
    (p == head.id || exists e :: e in head.checkpoints && Live(e, at) && e.manifestId == p)
    && exists c, d :: c in w.checkpoints && d in head.checkpoints && c.id == d.id
                      && Live(c, at) && Live(d, at) && c.manifestId == p
  }

  lemma VouchedAre(head: Manifest, w: Manifest, at: nat)
    ensures forall p :: p in Vouched(head, Some(w), at) <==> p == w.id || SharedPin(head, w, at, p)
  {
    forall p | SharedPin(head, w, at, p) ensures p in VouchedPins(head, w, at) {
      var c, d :| c in w.checkpoints && d in head.checkpoints && c.id == d.id
                  && Live(c, at) && Live(d, at) && c.manifestId == p;
      assert c.id in LiveIds(head, at);
    }
    forall p | p in VouchedPins(head, w, at) ensures SharedPin(head, w, at, p) {
      var c :| c in w.checkpoints && Live(c, at) && c.id in LiveIds(head, at) && c.manifestId == p;
      var d :| d in head.checkpoints && Live(d, at) && d.id == c.id;
    }
  }

  method DiffAgainstWatermark(w: Stores, cache: ManifestCache, head: Manifest, watermark: Option<Manifest>)
    returns (r: PassResult<Diff>)
    requires w.Valid() && cache.Agrees(w.st.src)
    requires head.id in w.st.src.hist && head == w.st.src.hist[head.id]
    requires Covered(w.st, head, watermark)
    modifies w, cache
    ensures w.Valid() && cache.Agrees(w.st.src) && EnvMoves(old(w.st), w.st)
    ensures old(w.Quiet()) ==> w.Quiet() && w.st == old(w.st)
    ensures old(w.Quiet()) && LivePins(head, old(w.st.src.now)) <= old(w.st.src.live) ==> r.Done?
    ensures r.Done? ==> IsDiff(w.st.src.hist, head, watermark, r.value)
    ensures r.Done? ==> old(w.st.src.now) == r.value.at && r.value.at <= w.st.src.now
    ensures r.Done? ==> forall p | p in r.value.present :: PresentWhole(w.st, p)
    ensures r.Fatal? ==> r.error == StoreError
  {
    hide Inv, NewPinsAreNew, NoRevival, Objects;
    var now := w.st.src.now;
    HeadsHeld(w.st, w.cfg);
    VouchedPresent(w.st, head, watermark, now);
    var closure := ClosureOf(w, cache, head, now);
    match closure {
      case Failed => return Fatal(StoreError);
      case Missing => return Again;
      case Found(manifests) =>
        var proven, present := Proven(head, watermark, now, manifests, w.st.src.hist);
        var all := UnionOf(manifests);
        r := Done(Diff(now, manifests, all - proven, present));
        forall o
          ensures o in all <==> InSome(w.st.src.hist, manifests.Keys, o)
        {
        }
    }
  }

  /** `head_misses`: the items a HEAD does not find at the target. */
  method HeadMisses(w: Stores, items: set<DataObject>) returns (r: Fetch<set<DataObject>>)
    requires w.Valid()
    modifies w
    ensures w.Valid() && EnvMoves(old(w.st), w.st) && !r.Missing?
    ensures old(w.Quiet()) ==> w.Quiet() && w.st == old(w.st) && r.Found?
    ensures r.Found? ==> r.value <= items && forall o | o in items :: o in r.value || o in w.st.dst.objs
    ensures r.Found? ==> forall o | o in r.value :: o !in old(w.st.dst.objs)
  {
    hide Inv, NewPinsAreNew, NoRevival;
    var misses: set<DataObject> := {};
    var rest := items;
    NothingMoved(w.st, w.cfg);
    while rest != {}
      invariant w.Valid() && EnvMoves(old(w.st), w.st) && rest <= items && misses <= items
      invariant old(w.Quiet()) ==> w.Quiet() && w.st == old(w.st)
      invariant forall o | o in items :: o in rest || o in misses || o in w.st.dst.objs
      invariant forall o | o in misses :: o !in old(w.st.dst.objs)
    {
      var o :| o in rest;
      rest := rest - {o};
      ghost var before := w.st;
      var probe := w.HeadTarget(o);
      EnvMovesTrans(old(w.st), before, w.st, w.cfg);
      if probe.Failed? { return Failed; }
      if probe.Missing? { misses := misses + {o}; }
    }
    return Found(misses);
  }

  /** `Copier::plan_compacted`: the builtin copier and rclone copy every candidate;
      the external one only what is not there yet. */
  method PlanCompacted(w: Stores, candidates: set<DataObject>, seeding: bool)
    returns (r: Fetch<set<DataObject>>)
    requires w.Valid()
    modifies w
    ensures w.Valid() && EnvMoves(old(w.st), w.st) && !r.Missing?
    ensures old(w.Quiet()) ==> w.Quiet() && w.st == old(w.st) && r.Found?
    ensures r.Found? ==>
      r.value <= candidates && forall o | o in candidates :: o in r.value || o in w.st.dst.objs
    ensures r.Found? && !w.cfg.copier.External? ==> r.value == candidates
    ensures r.Found? && w.cfg.copier.External? ==> forall o | o in r.value :: o !in old(w.st.dst.objs)
  {
    hide Inv, NewPinsAreNew, NoRevival;
    if !w.cfg.copier.External? {
      NothingMoved(w.st, w.cfg);
      return Found(candidates);
    }
    if !seeding {
      r := HeadMisses(w, candidates);
      return;
    }
    var present := w.ListTargetObjects();
    if present.Failed? { return Failed; }
    return Found(set o | o in candidates && o !in present.value);
  }

  /** `plan_work`: the compacted candidates as the copier plans them, and the WAL
      candidates a HEAD misses. */
  method PlanWork(w: Stores, d: Diff, seeding: bool) returns (r: PassResult<set<DataObject>>)
    requires w.Valid()
    modifies w
    ensures w.Valid() && EnvMoves(old(w.st), w.st) && !r.Again?
    ensures old(w.Quiet()) ==> w.Quiet() && w.st == old(w.st) && r.Done?
    ensures r.Done? ==>
      r.value <= d.candidates && forall o | o in d.candidates :: o in r.value || o in w.st.dst.objs
    ensures r.Done? ==> forall o | o in r.value && (o.Wal? || w.cfg.copier.External?) :: o !in old(w.st.dst.objs)
    ensures r.Done? && !w.cfg.copier.External? ==>
              forall o | o in d.candidates && o.Compacted? :: o in r.value
    ensures r.Fatal? ==> r.error == StoreError
  {
    hide Inv, NewPinsAreNew, NoRevival;
    var compacted := PlanCompacted(w, (set o | o in d.candidates && o.Compacted?), seeding);
    if compacted.Failed? { return Fatal(StoreError); }
    ghost var mid := w.st;
    var wal := HeadMisses(w, (set o | o in d.candidates && o.Wal?));
    EnvMovesTrans(old(w.st), mid, w.st, w.cfg);
    if wal.Failed? { return Fatal(StoreError); }
    return Done(compacted.value + wal.value);
  }

  /** The whole point of the diff: what is not planned is already there. Copying
      the planned work leaves the same closure present as copying all of it. */
  lemma PlanCoversClosure(st: State, cfg: Settings, head: Manifest, watermark: Option<Manifest>,
                          d: Diff, work: set<DataObject>)
    requires Inv(st, cfg) && IsDiff(st.src.hist, head, watermark, d)
    requires forall p | p in d.present :: PresentWhole(st, p)
    requires forall o | o in d.candidates :: o in work || o in st.dst.objs
    ensures forall k | k in Members(head, d.at) ::
              k in st.src.hist && Objects(st.src.hist[k]) <= st.dst.objs.Keys + work
  {
    forall k, o | k in Members(head, d.at) && o in Objects(st.src.hist[k])
      ensures o in st.dst.objs.Keys + work
    {
      assert InSome(st.src.hist, d.manifests.Keys, o);
      if InSome(st.src.hist, d.present, o) {
        var p :| p in d.present && p in st.src.hist && o in Objects(st.src.hist[p]);
        assert PresentWhole(st, p);
      } else {
        assert o in d.candidates;
      }
    }
  }

  /** The source checkpoint one pass holds while its data objects copy. */
  class Pin {
    const id: nat
    const manifestId: nat
    const lifetime: nat
    var refreshDue: nat
    var deadline: nat

    constructor (id: nat, manifestId: nat, lifetime: nat, now: nat)
      ensures this.id == id && this.manifestId == manifestId && this.lifetime == lifetime
      ensures refreshDue == now + lifetime / 2 && deadline == now + lifetime
    {
      this.id := id;
      this.manifestId := manifestId;
      this.lifetime := lifetime;
      this.refreshDue := now + lifetime / 2;
      this.deadline := now + lifetime;
    }

    /** Refresh at half-life. A pin that cannot be proven alive restarts the pass. */
    method Refresh(w: Stores) returns (ok: bool)
      requires w.Valid()
      modifies this, w
      ensures w.Valid() && Grows(old(w.st), w.st)
      ensures w.st.dst.manifests == old(w.st.dst.manifests) && w.st.heads == old(w.st.heads)
      ensures w.st.frontier == old(w.st.frontier) && w.st.adopted == old(w.st.adopted)
      ensures ok ==> deadline == w.st.src.now + lifetime && refreshDue == w.st.src.now + lifetime / 2
      ensures !ok ==> deadline == old(deadline)
    {
      ok := w.RefreshCheckpoint(id);
      if ok {
        refreshDue := w.st.src.now + lifetime / 2;
        deadline := w.st.src.now + lifetime;
      }
    }

    /** Whether the last confirmed lifetime has run out. */
    predicate Lapsed(now: nat)
      reads this
    {
      now >= deadline
    }
  }

  /** What copying leaves alone. */
  ghost predicate OnlyCopies(a: State, b: State) {
    && Grows(a, b) && b.dst.manifests == a.dst.manifests && b.heads == a.heads
    && b.frontier == a.frontier && b.adopted == a.adopted
  }

  lemma OnlyCopiesIs(a: State, b: State)
    ensures OnlyCopies(a, b) <==>
            Grows(a, b) && b.dst.manifests == a.dst.manifests && b.heads == a.heads
            && b.frontier == a.frontier && b.adopted == a.adopted
    ensures OnlyCopies(a, b) ==> a.dst.objs.Keys <= b.dst.objs.Keys && Later(a.src, b.src)
  {
  }

  lemma OnlyCopiesOn(a: State, b: State, c: State, cfg: Settings)
    requires Inv(a, cfg) && Inv(b, cfg) && Inv(c, cfg) && OnlyCopies(a, b) && OnlyCopies(b, c)
    ensures OnlyCopies(a, c)
  {
    GrowsTrans(a, b, c, cfg);
  }

  lemma MovesOnlyCopy(a: State, b: State)
    requires EnvMoves(a, b)
    ensures OnlyCopies(a, b)
  {
    EnvIsGrowth(a, b);
  }

  /** Read one object at the source and write it at the target. */
  method CopyOne(w: Stores, o: DataObject) returns (r: PassResult<()>)
    requires w.Valid() && (w.cfg.copier.External? || Explained(w.st, o))
    modifies w
    ensures w.Valid() && OnlyCopies(old(w.st), w.st)
    ensures r.Done? ==> o in w.st.dst.objs
    ensures r.Fatal? ==> r.error == if w.cfg.copier.Rclone? then RcloneError else StoreError
    ensures r.Again? ==> !w.cfg.copier.Rclone?
    ensures old(w.Quiet()) && o in old(w.st.src.objs) ==>
              r.Done? && w.Quiet() && w.st.src == old(w.st.src) && w.st.writes == old(w.st.writes)
  {
    hide *;
    ghost var start := w.st;
    var got := w.GetSourceObject(o);
    MovesOnlyCopy(start, w.st);
    OnlyCopiesIs(start, w.st);
    AllStayExplained(start, w.st, w.cfg, {o});
    match got {
      case Failed => return Fatal(if w.cfg.copier.Rclone? then RcloneError else StoreError);
      case Missing => return if w.cfg.copier.Rclone? then Fatal(RcloneError) else Again;
      case Found(_) =>
    }
    ghost var fetched := w.st;
    var put := w.PutObject(o);
    OnlyCopiesIs(fetched, w.st);
    OnlyCopiesOn(start, fetched, w.st, w.cfg);
    return if put then Done(()) else Fatal(if w.cfg.copier.Rclone? then RcloneError else StoreError);
  }

  /** When a copy started, and when its pin was due to be refreshed. */
  datatype Moment = Moment(now: nat, refreshDue: nat)

  ghost predicate InTime(started: map<DataObject, Moment>, lifetime: nat) {
    lifetime >= 2 ==> forall o | o in started :: started[o].now < started[o].refreshDue
  }

  lemma StartsInTime(started: map<DataObject, Moment>, lifetime: nat, o: DataObject, m: Moment)
    requires InTime(started, lifetime) && (lifetime >= 2 ==> m.now < m.refreshDue)
    ensures InTime(started[o := m], lifetime)
  {
  }

  lemma NothingStarted(lifetime: nat)
    ensures InTime(map[], lifetime)
  {
  }

  /** `copy_under_pin`: copy the work list, in whatever order the parallel copies
      finish, refreshing the pin whenever half its life has passed. */
  method CopyUnderPin(w: Stores, work: set<DataObject>, pin: Pin)
    returns (r: PassResult<nat>, ghost started: map<DataObject, Moment>)
    requires w.Valid()
    requires w.cfg.copier.External? || forall o | o in work :: Explained(w.st, o)
    modifies w, pin
    ensures w.Valid() && OnlyCopies(old(w.st), w.st)
    ensures r.Done? ==> work <= w.st.dst.objs.Keys && r.value == |work| && started.Keys == work
    ensures InTime(started, pin.lifetime)
    ensures r.Fatal? ==> r.error.StoreError? || r.error.RcloneError?
    ensures old(w.Quiet()) && old(w.st.src.now < pin.refreshDue) && work <= old(w.st.src.objs) ==>
              r.Done? && w.Quiet() && w.st.src == old(w.st.src) && w.st.writes == old(w.st.writes)
              && pin.deadline == old(pin.deadline)
  {
    hide *;
    ghost var start := w.st;
    var rest := work;
    started := map[];
    NothingStarted(pin.lifetime);
    NothingMoved(w.st, w.cfg);
    OnlyCopiesIs(w.st, w.st);
    while rest != {}
      invariant w.Valid() && OnlyCopies(start, w.st) && rest <= work
      invariant w.cfg.copier.External? || forall o | o in rest :: Explained(w.st, o)
      invariant forall o | o in work :: o in rest || o in w.st.dst.objs
      invariant started.Keys == work - rest
      invariant InTime(started, pin.lifetime)
      invariant old(w.Quiet()) && old(w.st.src.now < pin.refreshDue) && work <= start.src.objs ==>
                  w.Quiet() && w.st.src == start.src && w.st.writes == start.writes
                  && pin.refreshDue == old(pin.refreshDue) && pin.deadline == old(pin.deadline)
    {
      if w.st.src.now >= pin.refreshDue {
        ghost var before := w.st;
        var refreshed := pin.Refresh(w);
        OnlyCopiesIs(before, w.st);
        OnlyCopiesOn(start, before, w.st, w.cfg);
        if !refreshed { return Again, started; }
        AllStayExplained(before, w.st, w.cfg, rest);
      }
      var o :| o in rest;
      rest := rest - {o};
      StartsInTime(started, pin.lifetime, o, Moment(w.st.src.now, pin.refreshDue));
      started := started[o := Moment(w.st.src.now, pin.refreshDue)];
      ghost var asked := w.st;
      var one := CopyOne(w, o);
      OnlyCopiesIs(asked, w.st);
      OnlyCopiesOn(start, asked, w.st, w.cfg);
      AllStayExplained(asked, w.st, w.cfg, rest);
      match one {
        case Fatal(e) => return Fatal(e), started;
        case Again => return Again, started;
        case Done(_) =>
      }
    }
    return Done(|work|), started;
  }

  lemma AllStayExplained(a: State, b: State, cfg: Settings, work: set<DataObject>)
    requires Inv(a, cfg) && Inv(b, cfg) && Later(a.src, b.src)
    requires b.frontier == a.frontier && b.adopted == a.adopted
    requires cfg.copier.External? || forall o | o in work :: Explained(a, o)
    ensures cfg.copier.External? || forall o | o in work :: Explained(b, o)
  {
    if !cfg.copier.External? {
      forall o | o in work ensures Explained(b, o) { ExplainedStable(a, b, o); }
    }
  }

  /** Where the commit loop stands: of the head's closure only `rest` is still to
      come, and nothing newer than the head is at the target. */
  ghost predicate Committing(st: State, head: Manifest, at: nat, rest: set<nat>) {
    && Staged(st, head.id, at) && head == st.src.hist[head.id]
    && rest <= Members(head, at)
    && (forall j | j in Members(head, at) :: j in rest || j in st.dst.manifests)
    && (forall j | j in st.dst.manifests :: j < head.id || head.id !in rest)
    && (forall j | j in st.dst.manifests :: j <= head.id)
    && (head.id in rest || head.id in st.heads)
  }

  /** One turn of the commit loop: read the bytes at the source, PUT them with
      create-if-absent, and compare when the id is taken. A racing task landing the
      same body is success; another body would be another writer's. */
  method CommitOne(w: Stores, head: Manifest, at: nat, rest: set<nat>, id: nat) returns (r: PassResult<nat>)
    requires w.Valid() && Committing(w.st, head, at, rest)
    requires id in rest && forall j | j in rest :: id <= j
    modifies w
    ensures w.Valid() && Grows(old(w.st), w.st)
    ensures w.st.frontier == old(w.st.frontier) && w.st.adopted == old(w.st.adopted)
    ensures w.st.writes == old(w.st.writes)
    ensures r.Done? ==> Committing(w.st, head, at, rest - {id})
    ensures r.Done? ==> |w.st.dst.manifests| == |old(w.st.dst.manifests)| + r.value
    ensures r.Fatal? ==> r.error.StoreError?
    ensures old(w.Quiet()) && id in old(w.st.src.live) ==>
              r.Done? && w.Quiet() && w.st.src == old(w.st.src)
  {
    hide *;
    ghost var start := w.st;
    var body := w.ReadSource(id);
    EnvIsGrowth(start, w.st);
    CommittingStable(start, w.st, head, at, rest);
    if body.Failed? { return Fatal(StoreError); }
    if body.Missing? { return Again; }
    CommitReady(w.st, w.cfg, head, at, rest, id);
    ghost var mid := w.st;
    var put := w.CreateManifest(id, body.value, id == head.id);
    GrowsTrans(start, mid, w.st, w.cfg);
    if put.PutFailed? { return Fatal(StoreError); }
    CommittedOne(mid, w.st, head, at, rest, id);
    OneMore(mid, w.st, id);
    if put.Created? { return Done(1); }
    ghost var found := w.st;
    var existing := w.ReadTarget(id);
    EnvIsGrowth(found, w.st);
    GrowsTrans(start, found, w.st, w.cfg);
    GrowsTrans(mid, found, w.st, w.cfg);
    CommittingStable(found, w.st, head, at, rest - {id});
    if !existing.Found? { return Fatal(StoreError); }
    BodiesLast(mid, w.st, id);
    if existing.value != body.value { return Fatal(Diverged(id, head.id)); }
    return Done(0);
  }

  lemma OneMore(a: State, b: State, id: nat)
    requires Grows(a, b) && id in b.dst.manifests && b.dst.manifests.Keys <= a.dst.manifests.Keys + {id}
    ensures |b.dst.manifests| == |a.dst.manifests| + if id in a.dst.manifests then 0 else 1
  {
    ManifestsGrow(a, b);
    hide Grows;
    SizeAfter(a.dst.manifests.Keys, b.dst.manifests.Keys, id);
    assert |b.dst.manifests| == |b.dst.manifests.Keys| && |a.dst.manifests| == |a.dst.manifests.Keys|;
  }

  lemma ManifestsGrow(a: State, b: State)
    requires Grows(a, b)
    ensures forall i | i in a.dst.manifests :: i in b.dst.manifests
  {
  }

  lemma SizeAfter(a: set<nat>, b: set<nat>, id: nat)
    requires id in b && a <= b <= a + {id}
    ensures |b| == |a| + if id in a then 0 else 1
  {
    if id in a {
      assert b == a;
    } else {
      assert b == a + {id};
    }
  }

  /** `commit`: the closure's manifests in ascending id order, the head last, each
      with create-if-absent. */
  method CommitClosure(w: Stores, d: Diff, head: Manifest, copied: nat) returns (r: PassResult<PassOutcome>)
    requires w.Valid() && Staged(w.st, head.id, d.at) && head == w.st.src.hist[head.id]
    requires d.manifests.Keys == Members(head, d.at)
    requires forall p | p in d.present :: p in w.st.dst.manifests
    requires forall j | j in w.st.dst.manifests :: j < head.id
    modifies w
    ensures w.Valid() && Grows(old(w.st), w.st)
    ensures w.st.frontier == old(w.st.frontier) && w.st.adopted == old(w.st.adopted)
    ensures w.st.writes == old(w.st.writes)
    ensures r.Done? ==> r.value.head == head.id && r.value.nextWal == head.nextWal && r.value.committed
                        && Landed(w.st, head)
    ensures r.Done? ==> r.value.copied == copied
                        && |w.st.dst.manifests| == |old(w.st.dst.manifests)| + r.value.manifestsCommitted
    ensures r.Fatal? ==> r.error.StoreError?
    ensures old(w.Quiet()) && Members(head, d.at) <= old(w.st.src.live) ==>
              r.Done? && w.Quiet() && w.st.src == old(w.st.src)
  {
    hide *;
    var rest := d.manifests.Keys - d.present;
    CommittingStarts(w.st, head, d);
    NothingMoved(w.st, w.cfg);
    var committed := 0;
    ghost var start := w.st;
    while rest != {}
      invariant w.Valid() && Grows(start, w.st) && Committing(w.st, head, d.at, rest)
      invariant w.st.frontier == start.frontier && w.st.adopted == start.adopted
      invariant w.st.writes == start.writes
      invariant rest <= d.manifests.Keys && |w.st.dst.manifests| == |start.dst.manifests| + committed
      invariant old(w.Quiet()) && Members(head, d.at) <= start.src.live ==>
                  w.Quiet() && w.st.src == start.src
    {
      ghost var before := w.st;
      var id := MinOf(rest);
      var one := CommitOne(w, head, d.at, rest, id);
      GrowsTrans(start, before, w.st, w.cfg);
      match one {
        case Fatal(e) => return Fatal(e);
        case Again => return Again;
        case Done(n) =>
          committed := committed + n;
          rest := rest - {id};
      }
    }
    AllCommitted(w.st, head, d.at);
    return Done(PassOutcome(head.id, head.nextWal, true, committed, copied));
  }

  lemma CommittingStarts(st: State, head: Manifest, d: Diff)
    requires Staged(st, head.id, d.at) && head == st.src.hist[head.id] && d.manifests.Keys == Members(head, d.at)
    requires forall p | p in d.present :: p in st.dst.manifests
    requires forall j | j in st.dst.manifests :: j < head.id
    ensures Committing(st, head, d.at, d.manifests.Keys - d.present)
  {
  }

  /** The head of a pass is the target's latest manifest. */
  ghost predicate Landed(st: State, head: Manifest) {
    && head.id in st.src.hist && st.src.hist[head.id] == head
    && IsLatest(st.dst, head.id) && head.id in st.heads
  }

  lemma AllCommitted(st: State, head: Manifest, at: nat)
    requires Committing(st, head, at, {})
    ensures Landed(st, head)
  {
    assert head.id in Members(head, at);
  }

  lemma CommittingStable(a: State, b: State, head: Manifest, at: nat, rest: set<nat>)
    requires Committing(a, head, at, rest) && EnvMoves(a, b)
    ensures Committing(b, head, at, rest)
  {
    StagedStable(a, b, head.id, at);
  }

  lemma BodiesLast(a: State, b: State, id: nat)
    requires Grows(a, b) && id in a.src.hist
    ensures id in b.src.hist && b.src.hist[id] == a.src.hist[id]
  {
  }

  lemma CommittedOne(a: State, b: State, head: Manifest, at: nat, rest: set<nat>, id: nat)
    requires Committing(a, head, at, rest) && Grows(a, b) && id in rest
    requires forall j | j in rest :: id <= j
    requires id in b.dst.manifests && b.dst.manifests.Keys <= a.dst.manifests.Keys + {id}
    requires id == head.id && id !in a.dst.manifests ==> id in b.heads
    ensures Committing(b, head, at, rest - {id})
  {
    hide NewPinsAreNew, NoRevival, Objects, LivePins;
    StagedStable(a, b, head.id, at);
    if head.id in rest && id != head.id {
      assert id <= head.id;
    }
  }

  /** The smallest manifest still to come may be committed. */
  lemma CommitReady(st: State, cfg: Settings, head: Manifest, at: nat, rest: set<nat>, id: nat)
    requires Inv(st, cfg) && Committing(st, head, at, rest)
    requires id in rest && forall j | j in rest :: id <= j
    ensures id in st.src.hist && PinsReady(st, id) && Objects(st.src.hist[id]) <= st.dst.objs.Keys
    ensures id == head.id ==> HeadReady(st, id)
  {
    var m := Members(head, at);
    MemberReady(st, head.id, at, id);
    if id == head.id {
      LivePinsShrink(head, at, st.src.now);
      forall j | j in LivePins(head, st.src.now)
        ensures j in st.dst.manifests.Keys + {id}
      {
        assert j in m && j <= head.id;
      }
    }
  }

  /** What a successful pass leaves: the target's latest manifest is the reported
      head, no pass ever copied for a newer one, and a committed head is recorded. */
  ghost predicate Passed(st: State, o: PassOutcome) {
    && o.head in st.src.hist && IsLatest(st.dst, o.head)
    && o.nextWal == st.src.hist[o.head].nextWal
    && (st.adopted.Some? ==> st.adopted.value <= o.head)
    && (o.committed ==> o.head in st.heads)
  }

  /** The watermark a pass read is still the target's latest manifest. */
  ghost predicate IsWatermark(st: State, watermark: Option<Manifest>) {
    match watermark
    case None => st.dst.manifests == map[]
    case Some(m) => AtTarget(st, m) && IsLatest(st.dst, m.id)
  }

  /** Every object of the head's closure is explained once the head is adopted. */
  lemma WorkExplained(st: State, cfg: Settings, head: Manifest, watermark: Option<Manifest>,
                      d: Diff, work: set<DataObject>)
    requires Inv(st, cfg) && IsDiff(st.src.hist, head, watermark, d) && work <= d.candidates
    requires head.id in st.src.hist && head == st.src.hist[head.id] && st.adopted == Some(head.id)
    ensures forall o | o in work :: Explained(st, o)
  {
    forall o | o in work
      ensures Explained(st, o)
    {
      assert InSome(st.src.hist, d.manifests.Keys, o);
      var k :| k in d.manifests.Keys && k in st.src.hist && o in Objects(st.src.hist[k]);
      MembersNotAbove(st, cfg, head, d.at, k);
      MemberObjectExplained(st, cfg, head, k, o);
    }
  }

  lemma MemberObjectExplained(st: State, cfg: Settings, head: Manifest, k: nat, o: DataObject)
    requires Inv(st, cfg) && head.id in st.src.hist && head == st.src.hist[head.id]
    requires k in st.src.hist && k <= head.id && o in Objects(st.src.hist[k])
    requires st.adopted == Some(head.id)
    ensures Explained(st, o)
  {
    hide Objects, LivePins, Protected;
    assert Sound(st.src, k) && Ordered(st.src.hist, k, head.id);
  }

  lemma MembersNotAbove(st: State, cfg: Settings, head: Manifest, at: nat, k: nat)
    requires Inv(st, cfg) && head.id in st.src.hist && head == st.src.hist[head.id]
    requires k in Members(head, at)
    ensures k <= head.id && k in st.src.hist
  {
    assert Sound(st.src, head.id);
  }

  /** The planned work in place, the closure is staged. */
  lemma WorkStages(st: State, cfg: Settings, head: Manifest, d: Diff, work: set<DataObject>)
    requires Inv(st, cfg) && head.id in st.src.hist && head == st.src.hist[head.id] && d.at <= st.src.now
    requires forall k | k in Members(head, d.at) ::
               k in st.src.hist && Objects(st.src.hist[k]) <= st.dst.objs.Keys + work
    requires work <= st.dst.objs.Keys
    ensures Staged(st, head.id, d.at)
  {
    forall k | k in Members(head, d.at) ensures k <= head.id { MembersNotAbove(st, cfg, head, d.at, k); }
  }

  lemma DiffStable(a: State, b: State, head: Manifest, watermark: Option<Manifest>, d: Diff)
    requires IsDiff(a.src.hist, head, watermark, d) && Later(a.src, b.src)
    requires watermark.Some? ==> watermark.value.id in a.src.hist
    requires forall p | p in d.present :: p in a.src.hist
    ensures IsDiff(b.src.hist, head, watermark, d)
  {
    forall o
      ensures InSome(a.src.hist, d.manifests.Keys, o) == InSome(b.src.hist, d.manifests.Keys, o)
      ensures InSome(a.src.hist, d.present, o) == InSome(b.src.hist, d.present, o)
    {
    }
  }

  /** Diff and plan for one head: the two halves of step 3. */
  method DiffAndPlan(w: Stores, cache: ManifestCache, head: Manifest, watermark: Option<Manifest>)
    returns (r: PassResult<(Diff, set<DataObject>)>)
    requires w.Valid() && cache.Agrees(w.st.src)
    requires head.id in w.st.src.hist && head == w.st.src.hist[head.id]
    requires Covered(w.st, head, watermark)
    modifies w, cache
    ensures w.Valid() && cache.Agrees(w.st.src) && EnvMoves(old(w.st), w.st)
    ensures head.id in w.st.src.hist && head == w.st.src.hist[head.id]
    ensures r.Done? ==> Planned(w.st, head, watermark, r.value.0, r.value.1)
    ensures r.Fatal? ==> r.error == StoreError
    ensures old(w.Quiet()) ==> w.Quiet() && w.st == old(w.st)
    ensures old(w.Quiet()) && LivePins(head, old(w.st.src.now)) <= old(w.st.src.live) ==> r.Done?
    ensures r.Done? && old(w.Quiet()) ==> r.value.0.at == w.st.src.now
  {
    assert watermark.Some? ==> watermark.value.id in w.st.src.hist;
    hide Inv, NewPinsAreNew, NoRevival, Objects, IsDiff, Covered, LivePins;
    var diff := DiffAgainstWatermark(w, cache, head, watermark);
    if diff.Again? { return Again; }
    if diff.Fatal? { return Fatal(diff.error); }
    ghost var mid := w.st;
    var work := PlanWork(w, diff.value, watermark.None?);
    EnvMovesTrans(old(w.st), mid, w.st, w.cfg);
    if work.Fatal? { return Fatal(work.error); }
    PlanIsPlanned(mid, w.st, w.cfg, head, watermark, diff.value, work.value);
    return Done((diff.value, work.value));
  }

  /** A diff with its work list: copying the list stages the closure, and what the
      target is said to hold it holds. */
  ghost predicate Planned(st: State, head: Manifest, watermark: Option<Manifest>,
                          d: Diff, work: set<DataObject>) {
    && IsDiff(st.src.hist, head, watermark, d) && d.at <= st.src.now
    && work <= d.candidates
    && (forall p | p in d.present :: p in st.dst.manifests)
    && forall k | k in Members(head, d.at) ::
         k in st.src.hist && Objects(st.src.hist[k]) <= st.dst.objs.Keys + work
  }

  lemma {:induction false} PlanIsPlanned(a: State, b: State, cfg: Settings, head: Manifest,
        watermark: Option<Manifest>,
                      d: Diff, work: set<DataObject>)
    requires Inv(a, cfg) && Inv(b, cfg) && EnvMoves(a, b)
    requires IsDiff(a.src.hist, head, watermark, d) && d.at <= a.src.now && work <= d.candidates
    requires forall p | p in d.present :: PresentWhole(a, p)
    requires watermark.Some? ==> watermark.value.id in a.src.hist
    requires forall o | o in d.candidates :: o in work || o in b.dst.objs
    ensures Planned(b, head, watermark, d, work)
  {
    hide Inv, NewPinsAreNew, NoRevival, Objects, LivePins, IsDiff;
    DiffStable(a, b, head, watermark, d);
    forall p | p in d.present ensures PresentWhole(b, p) { assert PresentWhole(a, p); }
    PlanCoversClosure(b, cfg, head, watermark, d, work);
  }

  lemma AgreesLater(cache: ManifestCache, a: Source, b: Source)
    requires cache.Agrees(a) && Later(a, b)
    ensures cache.Agrees(b)
  {
  }

  /** A pass holds its pin: it has adopted the pinned manifest, which is newer than
      its watermark, and the target still covers the watermark for it. */
  ghost predicate UnderPin(st: State, watermark: Option<Manifest>, head: nat) {
    && head in st.src.hist && st.src.hist[head].id == head && st.adopted == Some(head)
    && IsWatermark(st, watermark) && (watermark.Some? ==> watermark.value.id < head)
    && Covered(st, st.src.hist[head], watermark)
  }

  lemma UnderPinStable(a: State, b: State, watermark: Option<Manifest>, head: nat)
    requires UnderPin(a, watermark, head) && EnvMoves(a, b)
    ensures UnderPin(b, watermark, head)
  {
    hide NewPinsAreNew, NoRevival, Ids;
  }

  lemma PinIsUnderPin(a: State, b: State, cfg: Settings, handle: CheckpointHandle, watermark: Option<Manifest>)
    requires Inv(a, cfg) && Inv(b, cfg) && Later(a.src, b.src) && b.dst.manifests == a.dst.manifests
    requires IsWatermark(a, watermark) && Born(a.src)
    requires watermark.Some? ==> watermark.value.id < a.src.head
    requires Pinned(b, handle) && a.src.head <= handle.manifestId
    ensures UnderPin(b, watermark, handle.manifestId)
  {
    assert Sound(b.src, handle.manifestId);
    HeadCovered(b, b.src.hist[handle.manifestId], watermark);
  }

  /** The source holds the whole closure of manifest `head`, as its pin makes sure. */
  ghost predicate Protects(s: Source, head: nat) {
    head in s.hist && forall k | k in Members(s.hist[head], s.now) ::
      k in s.hist && k in s.live && Objects(s.hist[k]) <= s.objs
  }

  lemma WorkAtSource(st: State, head: Manifest, watermark: Option<Manifest>, d: Diff, work: set<DataObject>)
    requires Planned(st, head, watermark, d, work) && d.at == st.src.now
    requires head.id in st.src.hist && head == st.src.hist[head.id] && Protects(st.src, head.id)
    ensures work <= st.src.objs && LivePins(head, d.at) <= st.src.live && Members(head, d.at) <= st.src.live
  {
    forall o | o in work
      ensures o in st.src.objs
    {
      assert InSome(st.src.hist, d.manifests.Keys, o);
    }
  }

  lemma {:induction false} StagedForCommit(a: State, b: State, cfg: Settings, head: Manifest,
        watermark: Option<Manifest>,
                        d: Diff, work: set<DataObject>)
    requires Inv(a, cfg) && Inv(b, cfg) && Grows(a, b) && b.dst.manifests == a.dst.manifests
    requires Planned(a, head, watermark, d, work) && work <= b.dst.objs.Keys
    requires head.id in a.src.hist && head == a.src.hist[head.id]
    requires IsWatermark(a, watermark) && (watermark.Some? ==> watermark.value.id < head.id)
    ensures Staged(b, head.id, d.at) && head == b.src.hist[head.id]
    ensures d.manifests.Keys == Members(head, d.at)
    ensures forall p | p in d.present :: p in b.dst.manifests
    ensures forall j | j in b.dst.manifests :: j < head.id
  {
    hide NewPinsAreNew, NoRevival, Objects, LivePins, PointOpen, TailOk, Vouched, InSome;
    WorkStages(b, cfg, head, d, work);
  }

  lemma LandedIsPassed(st: State, head: Manifest, o: PassOutcome)
    requires Landed(st, head) && o.head == head.id && o.nextWal == head.nextWal
    requires st.adopted.Some? ==> st.adopted.value <= head.id
    ensures Passed(st, o)
  {
  }

  lemma PassedStable(a: State, b: State, o: PassOutcome)
    requires Passed(a, o) && Grows(a, b) && b.dst.manifests == a.dst.manifests && b.adopted == a.adopted
    ensures Passed(b, o)
  {
  }

  /** A pass reports how many manifests it has brought. */
  ghost predicate Counts(a: State, b: State, o: PassOutcome) {
    |b.dst.manifests| == |a.dst.manifests| + o.manifestsCommitted
  }

  lemma ItCounts(a: State, b: State, o: PassOutcome)
    ensures |b.dst.manifests| == |a.dst.manifests| + o.manifestsCommitted ==> Counts(a, b, o)
  {
  }

  lemma CountsAlike(a: State, b: State, c: State, d: State, o: PassOutcome)
    requires Counts(b, c, o)
    ensures EnvMoves(a, b) || a.dst.manifests == b.dst.manifests ==>
              (c.dst.manifests == d.dst.manifests ==> Counts(a, d, o))
  {
  }

  /** Copy under the pin, then commit unless the pin has lapsed. */
  method CopyAndCommit(w: Stores, head: Manifest, watermark: Option<Manifest>, d: Diff,
                       work: set<DataObject>, pin: Pin)
    returns (r: PassResult<PassOutcome>, ghost copiedAt: State)
    requires w.Valid() && UnderPin(w.st, watermark, head.id) && w.st.src.hist[head.id] == head
    requires Planned(w.st, head, watermark, d, work)
    modifies w, pin
    ensures w.Valid() && Grows(old(w.st), w.st) && w.st.frontier == old(w.st.frontier)
    ensures r.Done? ==> Passed(w.st, r.value) && r.value.committed && r.value.head == head.id
    ensures r.Done? ==> Counts(old(w.st), w.st, r.value) && r.value.copied == |work|
    ensures r.Done? ==> Grows(old(w.st), copiedAt) && Grows(copiedAt, w.st)
                        && copiedAt.dst.manifests == old(w.st.dst.manifests) && work <= copiedAt.dst.objs.Keys
                        && copiedAt.src.now < pin.deadline
    ensures r.Fatal? ==> r.error.StoreError? || r.error.RcloneError?
    ensures old(w.Quiet()) && old(w.st.src.now < pin.refreshDue) && old(w.st.src.now < pin.deadline)
            && work <= old(w.st.src.objs) && Members(head, d.at) <= old(w.st.src.live) ==>
              r.Done? && w.Quiet() && w.st.src == old(w.st.src) && w.st.writes == old(w.st.writes)
  {
    hide *;
    ghost var start := w.st;
    CopyReady(start, w.cfg, head, watermark, d, work);
    var copied, _ := CopyUnderPin(w, work, pin);
    copiedAt := w.st;
    OnlyCopiesIs(start, w.st);
    if copied.Again? { return Again, copiedAt; }
    if copied.Fatal? { return Fatal(copied.error), copiedAt; }
    StillAlive(pin, w.st.src.now);
    if pin.Lapsed(w.st.src.now) { return Again, copiedAt; }
    StagedForCommit(start, w.st, w.cfg, head, watermark, d, work);
    ghost var mid := w.st;
    r := CommitClosure(w, d, head, copied.value);
    GrowsTrans(start, mid, w.st, w.cfg);
    if r.Done? {
      LandedIsPassed(w.st, head, r.value);
      ItCounts(start, w.st, r.value);
    }
  }

  lemma CopyReady(st: State, cfg: Settings, head: Manifest, watermark: Option<Manifest>, d: Diff, work: set<DataObject>)
    requires Inv(st, cfg) && UnderPin(st, watermark, head.id) && st.src.hist[head.id] == head
    requires Planned(st, head, watermark, d, work)
    ensures head.id in st.src.hist && IsWatermark(st, watermark) && st.adopted == Some(head.id)
    ensures watermark.Some? ==> watermark.value.id < head.id
    ensures forall o | o in work :: Explained(st, o)
  {
    hide Inv, Objects, IsDiff, Explained, Covered;
    WorkExplained(st, cfg, head, watermark, d, work);
  }

  lemma StillAlive(pin: Pin, now: nat)
    ensures pin.Lapsed(now) <==> now >= pin.deadline
  {
  }

  /** Everything a pass does once its pin stands. On any early error the pin is left
      to expire, as the source does. */
  method UsePin(w: Stores, cache: ManifestCache, watermark: Option<Manifest>, pin: Pin)
    returns (r: PassResult<PassOutcome>)
    requires w.Valid() && cache.Agrees(w.st.src) && UnderPin(w.st, watermark, pin.manifestId)
    modifies w, cache, pin
    ensures w.Valid() && cache.Agrees(w.st.src) && Grows(old(w.st), w.st)
    ensures w.st.frontier == old(w.st.frontier)
    ensures r.Done? ==> Passed(w.st, r.value) && r.value.committed && r.value.head == pin.manifestId
    ensures r.Done? ==> Counts(old(w.st), w.st, r.value)
    ensures r.Fatal? ==> r.error.StoreError? || r.error.RcloneError?
    ensures old(w.Quiet()) && Protects(old(w.st.src), pin.manifestId)
            && old(w.st.src.now < pin.refreshDue) && old(w.st.src.now < pin.deadline)
            && Listed(old(w.st.src), pin.id) ==>
              r.Done? && w.Quiet() && w.st.src == Unpinned(old(w.st.src), pin.id)
              && w.st.writes == old(w.st.writes) + 1
  {
    hide *;
    ghost var start := w.st;
    var body := cache.Read(w, pin.manifestId);
    EnvIsGrowth(start, w.st);
    UnderPinStable(start, w.st, watermark, pin.manifestId);
    ghost var read := w.st;
    UnderPinCovers(read, watermark, pin.manifestId);
    if body.Failed? { return Fatal(StoreError); }
    if body.Missing? {
      ProtectedIsLive(read.src, pin.manifestId);
      var _ := w.DeleteCheckpoint(pin.id);
      GrowsTrans(start, read, w.st, w.cfg);
      GrowsIsLater(read, w.st);
      AgreesLater(cache, read.src, w.st.src);
      return Again;
    }
    var head := body.value;
    var plan := DiffAndPlan(w, cache, head, watermark);
    UnderPinStable(read, w.st, watermark, head.id);
    EnvMovesTrans(start, read, w.st, w.cfg);
    EnvIsGrowth(start, w.st);
    ProtectsPins(read.src, head);
    if plan.Again? { return Again; }
    if plan.Fatal? { return Fatal(plan.error); }
    ghost var planned := w.st;
    QuietWork(planned, w.cfg, head, watermark, plan.value.0, plan.value.1);
    ghost var copiedAt;
    r, copiedAt := CopyAndCommit(w, head, watermark, plan.value.0, plan.value.1, pin);
    GrowsTrans(start, planned, w.st, w.cfg);
    ghost var done := w.st;
    var _ := w.DeleteCheckpoint(pin.id);
    GrowsTrans(start, done, w.st, w.cfg);
    GrowsIsLater(start, w.st);
    GrowsTrans(planned, done, w.st, w.cfg);
    GrowsIsLater(planned, w.st);
    AgreesLater(cache, planned.src, w.st.src);
    if r.Done? {
      PassedStable(done, w.st, r.value);
      CountsAlike(start, planned, done, w.st, r.value);
    }
    QuietUnpin(done, w.st, pin.id);
  }

  predicate Listed(s: Source, id: nat) {
    s.head in s.hist && Find(s.hist[s.head].checkpoints, id) < |s.hist[s.head].checkpoints|
  }

  function Unpinned(s: Source, id: nat): Source {
    if s.head in s.hist then Committed(s, UnpinManifest(s, id)) else s
  }

  lemma QuietUnpin(a: State, b: State, id: nat)
    ensures QuietlyUnpinned(a, b, id) && Listed(a.src, id) ==>
              b.src == Unpinned(a.src, id) && b.writes == a.writes + 1
  {
  }

  lemma GrowsIsLater(a: State, b: State)
    requires Grows(a, b)
    ensures Later(a.src, b.src)
  {
  }

  lemma ProtectedIsLive(s: Source, head: nat)
    ensures Protects(s, head) && head in s.hist && s.hist[head].id == head ==> head in s.live
  {
  }

  lemma UnderPinCovers(st: State, watermark: Option<Manifest>, head: nat)
    requires UnderPin(st, watermark, head)
    ensures head in st.src.hist && Covered(st, st.src.hist[head], watermark)
    ensures st.src.hist[head].id == head
  {
  }

  lemma ProtectsPins(s: Source, head: Manifest)
    requires head.id in s.hist && s.hist[head.id] == head
    ensures Protects(s, head.id) ==> LivePins(head, s.now) <= s.live
  {
  }

  lemma {:induction false} QuietWork(st: State, cfg: Settings, head: Manifest, watermark: Option<Manifest>,
                                     d: Diff, work: set<DataObject>)
    requires Planned(st, head, watermark, d, work)
    requires head.id in st.src.hist && head == st.src.hist[head.id]
    ensures d.at == st.src.now && Protects(st.src, head.id) ==>
              work <= st.src.objs && Members(head, d.at) <= st.src.live
  {
    if d.at == st.src.now && Protects(st.src, head.id) {
      WorkAtSource(st, head, watermark, d, work);
    }
  }

  /** Steps 4 to 6: pin the source, adopt the manifest the pin protects as the head,
      diff again, copy under the pin, commit, unpin. */
  method PinAndCommit(w: Stores, cache: ManifestCache, watermark: Option<Manifest>)
    returns (r: PassResult<PassOutcome>)
    requires w.Valid() && cache.Agrees(w.st.src) && IsWatermark(w.st, watermark)
    requires Born(w.st.src) && (watermark.Some? ==> watermark.value.id < w.st.src.head)
    modifies w, cache
    ensures w.Valid() && cache.Agrees(w.st.src) && Grows(old(w.st), w.st)
    ensures w.st.frontier == old(w.st.frontier)
    ensures r.Done? ==> Passed(w.st, r.value) && r.value.committed && Counts(old(w.st), w.st, r.value)
    ensures r.Fatal? ==> r.error.StoreError? || r.error.RcloneError? || r.error.NotADatabase?
    ensures w.st.pins == old(w.st.pins) ==> w.st.writes == old(w.st.writes)
    ensures old(w.Quiet()) && w.cfg.lifetime >= 2 ==>
              r.Done? && w.Quiet() && w.st.writes == old(w.st.writes) + 2
              && w.st.src == PinnedPass(old(w.st.src), w.cfg, w.pinsPrevious)
              && r.value.head == PinnedHead(old(w.st.src), w.pinsPrevious)
  {
    hide *;
    ghost var start := w.st;
    HeadKnown(start, w.cfg);
    var made := w.CreateCheckpoint();
    GrowsIsLater(start, w.st);
    AgreesLater(cache, start.src, w.st.src);
    if made.Failed? { return Fatal(StoreError); }
    if made.Missing? { return Fatal(NotADatabase); }
    ghost var pinned := w.st;
    PinIsUnderPin(start, pinned, w.cfg, made.value, watermark);
    var pin := new Pin(made.value.id, made.value.manifestId, w.cfg.lifetime, w.st.src.now);
    QuietPin(start, pinned, w.cfg, made.value, w.pinsPrevious);
    r := UsePin(w, cache, watermark, pin);
    GrowsTrans(start, pinned, w.st, w.cfg);
    PinsGrow(pinned, w.st);
    if r.Done? { CountsAlike(start, pinned, w.st, w.st, r.value); }
  }

  lemma PinsGrow(a: State, b: State)
    requires Grows(a, b)
    ensures a.pins <= b.pins
  {
  }

  /** The head an undisturbed pinned pass commits, and the source it leaves. */
  function PinnedHead(s: Source, previous: bool): nat {
    if previous then s.head else s.head + 1
  }

  function PinnedPass(s: Source, cfg: Settings, previous: bool): Source
    requires s.head in s.hist
  {
    Unpinned(Committed(s, PinManifest(s, cfg, PinnedHead(s, previous))), s.nextUuid)
  }

  lemma HeadKnown(st: State, cfg: Settings)
    requires Inv(st, cfg)
    ensures Born(st.src) ==> st.src.head in st.src.hist
  {
  }

  lemma QuietPin(a: State, b: State, cfg: Settings, handle: CheckpointHandle, previous: bool)
    requires Inv(a, cfg) && Inv(b, cfg) && Born(a.src) && a.src.head in a.src.hist
    ensures cfg.lifetime >= 1 && QuietlyPinned(a, cfg, handle, previous, b) ==>
              Protects(b.src, handle.manifestId) && Listed(b.src, handle.id)
              && b.writes == a.writes + 1 && b.src.now == a.src.now
              && handle.manifestId == PinnedHead(a.src, previous)
              && Unpinned(b.src, handle.id) == PinnedPass(a.src, cfg, previous)
  {
    if cfg.lifetime >= 1 && QuietlyPinned(a, cfg, handle, previous, b) {
      PinProtects(a, b, cfg, handle, previous);
    }
  }

  lemma PinProtects(a: State, b: State, cfg: Settings, handle: CheckpointHandle, previous: bool)
    requires Inv(a, cfg) && Inv(b, cfg) && Born(a.src) && a.src.head in a.src.hist
    requires cfg.lifetime >= 1 && QuietlyPinned(a, cfg, handle, previous, b)
    ensures Protects(b.src, handle.manifestId) && Listed(b.src, handle.id)
  {
    var s, m := b.src, PinManifest(a.src, cfg, handle.manifestId);
    var entry := PinEntry(a.src, cfg, handle.manifestId);
    assert m.checkpoints[|m.checkpoints| - 1] == entry && entry in m.checkpoints && Live(entry, s.now);
    assert s.hist[s.head] == m;
    assert Sound(s, handle.manifestId) && Sound(a.src, a.src.head);
    forall k | k in Members(s.hist[handle.manifestId], s.now)
      ensures k in s.hist && k in s.live && Objects(s.hist[k]) <= s.objs
    {
      if k != handle.manifestId {
        var c :| c in s.hist[handle.manifestId].checkpoints && Live(c, s.now) && c.manifestId == k;
        assert c in m.checkpoints;
      }
    }
  }

  /** A source the mirror accepts: not a clone, and no separate WAL store. */
  predicate Accepted(m: Manifest) {
    !m.isClone && !m.separateWal
  }

  /** The source's latest manifest is a clone's, or of a database with a separate WAL store. */
  ghost predicate Excluded(s: Source) {
    Born(s) && s.head in s.hist && (s.hist[s.head].isClone || s.hist[s.head].separateWal)
  }

  lemma BornOnly(s: Source)
    ensures Excluded(s) ==> Born(s) && s.head in s.hist
  {
  }

  lemma ExcludedIs(s: Source)
    requires Born(s) && s.head in s.hist
    ensures Accepted(s.hist[s.head]) <==> !Excluded(s)
  {
  }

  /** A pass with nothing in its way: a source that is accepted, and a pin whose half
      life is at least one tick of the clock. */
  ghost predicate CanPass(st: State, cfg: Settings) {
    Born(st.src) && st.src.head in st.src.hist && Accepted(st.src.hist[st.src.head]) && cfg.lifetime >= 2
  }

  /** The target's latest manifest already has all the data the source's latest
      manifest needs: its objects, and its live entries word for word. */
  ghost predicate Settled(st: State) {
    st.src.head in st.src.hist && exists h | IsLatest(st.dst, h) && h in st.src.hist ::
      && Objects(st.src.hist[st.src.head]) <= Objects(st.src.hist[h])
      && forall c | c in st.src.hist[st.src.head].checkpoints && Live(c, st.src.now) ::
           c in st.src.hist[h].checkpoints
  }

  /** What an undisturbed pass does: nothing when caught up; commit the source's
      head when there is nothing to copy; otherwise commit the pinned head, leaving
      the source two checkpoint-only manifests further on. */
  ghost predicate StepsForward(a: State, b: State, cfg: Settings, previous: bool, o: PassOutcome) {
    a.src.head in a.src.hist &&
    ((!o.committed && b == a && IsLatest(a.dst, a.src.head))
    || (o.committed && !IsLatest(a.dst, a.src.head)
        && b.src == a.src && b.writes == a.writes && IsLatest(b.dst, a.src.head))
    || (o.committed && !IsLatest(a.dst, a.src.head) && b.src == PinnedPass(a.src, cfg, previous)
        && b.writes == a.writes + 2 && IsLatest(b.dst, PinnedHead(a.src, previous))))
  }

  /** `pass_once`. A pass that creates no checkpoint writes nothing at the source. */
  method PassOnce(w: Stores, cache: ManifestCache) returns (r: PassResult<PassOutcome>)
    requires w.Valid() && cache.Agrees(w.st.src)
    modifies w, cache
    ensures w.Valid() && cache.Agrees(w.st.src) && Grows(old(w.st), w.st)
    ensures w.st.frontier == old(w.st.frontier)
    ensures r.Done? ==> Passed(w.st, r.value)
    ensures r.Fatal? ==> !r.error.Diverged? && !r.error.Stalled?
    ensures w.st.pins == old(w.st.pins) ==> w.st.writes == old(w.st.writes)
    ensures r.Done? && !r.value.committed ==> w.st.pins == old(w.st.pins)
    ensures r.Done? ==> Counts(old(w.st), w.st, r.value)
    ensures old(w.Quiet()) && !Born(old(w.st.src)) ==> r == Fatal(NotADatabase) && w.st == old(w.st)
    ensures old(w.Quiet()) && Excluded(old(w.st.src)) ==> r == Fatal(ExcludedSource) && w.st == old(w.st)
    ensures old(w.Quiet()) && CanPass(old(w.st), w.cfg) ==>
              r.Done? && w.Quiet() && StepsForward(old(w.st), w.st, w.cfg, w.pinsPrevious, r.value)
    ensures old(w.Quiet()) && CanPass(old(w.st), w.cfg) && Settled(old(w.st)) ==> w.st.writes == old(w.st.writes)
  {
    hide *;
    ghost var start := w.st;
    var mark := w.ReadTargetHead();
    EnvChanges(start, w.st, w.cfg, cache);
    if mark.Failed? { return Fatal(StoreError); }
    var watermark := if mark.Found? then Some(mark.value) else None;
    MarkIsWatermark(w.st, mark, watermark);
    ghost var marked := w.st;
    var read := w.ReadSourceHead();
    EnvMovesTrans(start, marked, w.st, w.cfg);
    EnvChanges(start, w.st, w.cfg, cache);
    WatermarkStable(marked, w.st, watermark);
    QuietHead(w.st, w.cfg);
    BornOnly(w.st.src);
    if read.Failed? { return Fatal(StoreError); }
    if read.Missing? { return Fatal(NotADatabase); }
    var head := read.value;
    ExcludedIs(w.st.src);
    if !Accepted(head) { return Fatal(ExcludedSource); }
    WatermarkNotAhead(w.st, w.cfg, watermark);
    if watermark.Some? {
      var ahead := Diverged(watermark.value.id, head.id);
      if watermark.value.id > head.id { return Fatal(ahead); }
      if watermark.value.id == head.id {
        r := Done(PassOutcome(head.id, head.nextWal, false, 0, 0));
        CaughtUp(w.st, w.cfg, w.pinsPrevious, watermark, r.value);
        CountsNothing(start, w.st, r.value);
        return r;
      }
    }
    NotCaughtUp(w.st, watermark, head.id);
    ghost var atHead := w.st;
    r := Advance(w, cache, watermark, head);
    GrowsTrans(start, atHead, w.st, w.cfg);
    if r.Done? { CountsAlike(start, atHead, w.st, w.st, r.value); }
  }

  lemma CountsNothing(a: State, b: State, o: PassOutcome)
    requires EnvMoves(a, b) && o.manifestsCommitted == 0
    ensures Counts(a, b, o)
  {
  }

  /** Steps 3 to 6 for a source head newer than the watermark. */
  method Advance(w: Stores, cache: ManifestCache, watermark: Option<Manifest>, head: Manifest)
    returns (r: PassResult<PassOutcome>)
    requires w.Valid() && cache.Agrees(w.st.src) && IsWatermark(w.st, watermark)
    requires Born(w.st.src) && head.id == w.st.src.head && head.id in w.st.src.hist
    requires head == w.st.src.hist[head.id] && (watermark.Some? ==> watermark.value.id < head.id)
    modifies w, cache
    ensures w.Valid() && cache.Agrees(w.st.src) && Grows(old(w.st), w.st)
    ensures w.st.frontier == old(w.st.frontier)
    ensures r.Done? ==> Passed(w.st, r.value)
    ensures r.Fatal? ==> !r.error.Diverged? && !r.error.Stalled?
    ensures w.st.pins == old(w.st.pins) ==> w.st.writes == old(w.st.writes)
    ensures r.Done? ==> r.value.committed && Counts(old(w.st), w.st, r.value)
    ensures old(w.Quiet()) && w.cfg.lifetime >= 2 && !IsLatest(old(w.st.dst), head.id) ==>
              r.Done? && w.Quiet() && StepsForward(old(w.st), w.st, w.cfg, w.pinsPrevious, r.value)
    ensures old(w.Quiet()) && Settled(old(w.st)) ==> w.st.writes == old(w.st.writes)
  {
    hide *;
    ghost var start := w.st;
    KnownWatermark(start, watermark);
    HeadsHeld(start, w.cfg);
    HeadCovered(start, head, watermark);
    HeadAtSource(start, w.cfg);
    var plan := DiffAndPlan(w, cache, head, watermark);
    EnvChanges(start, w.st, w.cfg, cache);
    WatermarkStable(start, w.st, watermark);
    if plan.Again? { return Again; }
    if plan.Fatal? { return Fatal(plan.error); }
    ghost var planned := w.st;
    var d, work := plan.value.0, plan.value.1;
    SettledWork(planned, head, watermark, d, work);
    NewerHead(start, planned, w.cfg, head);
    if work == {} {
      NothingMoved(planned, w.cfg);
      StagedForCommit(planned, planned, w.cfg, head, watermark, d, work);
      r := CommitClosure(w, d, head, 0);
      GrowsTrans(start, planned, w.st, w.cfg);
      GrowsIsLater(planned, w.st);
      AgreesLater(cache, planned.src, w.st.src);
      if r.Done? {
        DirectIsPassed(start, w.st, w.cfg, w.pinsPrevious, head, r.value);
        ItCounts(planned, w.st, r.value);
        CountsAlike(start, planned, w.st, w.st, r.value);
      }
      return r;
    }
    r := PinAndCommit(w, cache, watermark);
    GrowsTrans(start, planned, w.st, w.cfg);
    if r.Done? {
      PinnedStepsForward(start, w.st, w.cfg, w.pinsPrevious, r.value);
      CountsAlike(start, planned, w.st, w.st, r.value);
    }
  }

  lemma KnownWatermark(st: State, watermark: Option<Manifest>)
    requires IsWatermark(st, watermark)
    ensures watermark.Some? ==> AtTarget(st, watermark.value)
  {
  }

  lemma HeadsHeld(st: State, cfg: Settings)
    requires Inv(st, cfg)
    ensures forall i :: Held(st, i)
  {
  }

  lemma HeadAtSource(st: State, cfg: Settings)
    requires Inv(st, cfg) && Born(st.src)
    ensures st.src.head in st.src.hist
    ensures LivePins(st.src.hist[st.src.head], st.src.now) <= st.src.live
    ensures Members(st.src.hist[st.src.head], st.src.now) <= st.src.live
  {
    assert Sound(st.src, st.src.head);
  }

  lemma NotCaughtUp(st: State, watermark: Option<Manifest>, head: nat)
    requires IsWatermark(st, watermark) && (watermark.Some? ==> watermark.value.id < head)
    ensures !IsLatest(st.dst, head)
  {
  }

  lemma EnvChanges(a: State, b: State, cfg: Settings, cache: ManifestCache)
    requires EnvMoves(a, b)
    ensures Grows(a, b) && b.writes == a.writes && b.pins == a.pins && b.frontier == a.frontier
              && b.adopted == a.adopted
    ensures cache.Agrees(a.src) ==> cache.Agrees(b.src)
  {
  }

  lemma MarkIsWatermark(st: State, mark: Fetch<Manifest>, watermark: Option<Manifest>)
    requires !mark.Failed? && watermark == if mark.Found? then Some(mark.value) else None
    requires mark.Missing? ==> st.dst.manifests == map[]
    requires mark.Found? ==> IsLatest(st.dst, mark.value.id) && mark.value.id in st.src.hist
                             && st.src.hist[mark.value.id] == mark.value
    ensures IsWatermark(st, watermark)
    ensures watermark.Some? ==> AtTarget(st, watermark.value)
  {
  }

  lemma WatermarkStable(a: State, b: State, watermark: Option<Manifest>)
    requires IsWatermark(a, watermark) && EnvMoves(a, b)
    ensures IsWatermark(b, watermark) && (watermark.Some? ==> AtTarget(b, watermark.value))
  {
  }

  lemma QuietHead(st: State, cfg: Settings)
    requires Inv(st, cfg)
    ensures Born(st.src) ==> st.src.head in st.src.hist
    ensures CanPass(st, cfg) ==> Born(st.src) && Accepted(st.src.hist[st.src.head]) && cfg.lifetime >= 2
  {
  }

  lemma WatermarkNotAhead(st: State, cfg: Settings, watermark: Option<Manifest>)
    requires Inv(st, cfg) && IsWatermark(st, watermark)
    ensures watermark.Some? ==> watermark.value.id <= st.src.head
  {
    if watermark.Some? {
      assert Sound(st.src, watermark.value.id);
    }
  }

  lemma CaughtUp(st: State, cfg: Settings, previous: bool, watermark: Option<Manifest>, o: PassOutcome)
    requires Inv(st, cfg) && Born(st.src) && st.src.head in st.src.hist
    requires watermark.Some? && IsWatermark(st, watermark) && watermark.value.id == st.src.head
    requires o.head == st.src.head && o.nextWal == st.src.hist[st.src.head].nextWal && !o.committed
    ensures Passed(st, o) && StepsForward(st, st, cfg, previous, o)
  {
    assert st.adopted.Some? ==> Sound(st.src, st.adopted.value);
  }

  /** With the data settled, the diff proves every object of the closure present. */
  lemma SettledWork(st: State, head: Manifest, watermark: Option<Manifest>, d: Diff, work: set<DataObject>)
    requires Planned(st, head, watermark, d, work) && IsWatermark(st, watermark)
    requires head.id in st.src.hist && head == st.src.hist[head.id]
    ensures Settled(st) && d.at == st.src.now && head == st.src.hist[st.src.head] ==> work == {}
  {
    if Settled(st) && d.at == st.src.now && head == st.src.hist[st.src.head] {
      var h :| IsLatest(st.dst, h) && h in st.src.hist && Objects(head) <= Objects(st.src.hist[h])
        && forall c | c in head.checkpoints && Live(c, st.src.now) :: c in st.src.hist[h].checkpoints;
      assert h in st.dst.manifests && watermark.Some? && watermark.value.id == h;
      assert watermark.value == st.src.hist[h];
      forall o
        ensures o !in d.candidates
      {
        if o in d.candidates {
          assert InSome(st.src.hist, d.manifests.Keys, o);
          var k :| k in d.manifests.Keys && k in st.src.hist && o in Objects(st.src.hist[k]);
          SettledMember(st.src.hist, head, watermark.value, d, k, o);
        }
      }
    }
  }

  lemma SettledMember(h: map<nat, Manifest>, head: Manifest, w: Manifest, d: Diff, k: nat, o: DataObject)
    requires IsDiff(h, head, Some(w), d) && w.id in h && h[w.id] == w
    requires Objects(head) <= Objects(w) && head.id in h && h[head.id] == head
    requires forall c | c in head.checkpoints && Live(c, d.at) :: c in w.checkpoints
    requires k in d.manifests && k in h && o in Objects(h[k])
    ensures InSome(h, d.present, o)
  {
    hide Objects;
    if k == head.id {
      assert w.id in d.present && o in Objects(h[w.id]);
    } else {
      var c :| c in head.checkpoints && Live(c, d.at) && c.manifestId == k;
      assert c.id in LiveIds(head, d.at) && k in VouchedPins(head, w, d.at);
    }
  }

  lemma NewerHead(a: State, b: State, cfg: Settings, head: Manifest)
    requires Inv(a, cfg) && Inv(b, cfg) && EnvMoves(a, b) && Born(a.src)
    requires head.id == a.src.head
    ensures Born(b.src) && head.id <= b.src.head && head.id in b.src.hist
  {
  }

  lemma DirectIsPassed(a: State, b: State, cfg: Settings, previous: bool, head: Manifest, o: PassOutcome)
    requires Inv(a, cfg) && Landed(b, head) && o.head == head.id && o.nextWal == head.nextWal
    requires Born(a.src) && a.src.head == head.id && b.adopted == a.adopted && o.committed
    ensures Passed(b, o)
    ensures !IsLatest(a.dst, head.id) && b.src == a.src && b.writes == a.writes ==>
              StepsForward(a, b, cfg, previous, o)
  {
    assert a.adopted.Some? ==> Sound(a.src, a.adopted.value);
  }

  lemma PinnedStepsForward(a: State, b: State, cfg: Settings, previous: bool, o: PassOutcome)
    requires Inv(a, cfg) && Passed(b, o) && o.committed
    ensures Born(a.src) && a.src.head in a.src.hist && b.writes == a.writes + 2
            && !IsLatest(a.dst, a.src.head)
            && b.src == PinnedPass(a.src, cfg, previous) && o.head == PinnedHead(a.src, previous) ==>
              StepsForward(a, b, cfg, previous, o)
  {
  }

  /** `sync_pass`: run the pass, restarting it up to five times. */
  method SyncPass(w: Stores) returns (r: PassResult<PassOutcome>, ghost attempts: nat)
    requires w.Valid()
    modifies w
    ensures w.Valid() && Grows(old(w.st), w.st) && w.st.frontier == old(w.st.frontier) && !r.Again?
    ensures r.Done? ==> Passed(w.st, r.value)
    ensures r.Fatal? ==> !r.error.Diverged?
    ensures 1 <= attempts <= 5 && (r == Fatal(Stalled) ==> attempts == 5)
    ensures old(w.Quiet()) && !Born(old(w.st.src)) ==> r == Fatal(NotADatabase) && w.st == old(w.st)
    ensures old(w.Quiet()) && Excluded(old(w.st.src)) ==> r == Fatal(ExcludedSource) && w.st == old(w.st)
    ensures old(w.Quiet()) && CanPass(old(w.st), w.cfg) ==>
              r.Done? && w.Quiet() && StepsForward(old(w.st), w.st, w.cfg, w.pinsPrevious, r.value)
    ensures old(w.Quiet()) && CanPass(old(w.st), w.cfg) && Settled(old(w.st)) ==>
              w.st.writes == old(w.st.writes)
  {
    var cache := new ManifestCache();
    NothingMoved(w.st, w.cfg);
    assert cache.Agrees(w.st.src);
    hide *;
    attempts := 0;
    for attempt := 0 to MAX_RESTARTS
      invariant w.Valid() && Grows(old(w.st), w.st) && w.st.frontier == old(w.st.frontier)
      invariant cache.Agrees(w.st.src) && attempts == attempt
      invariant attempt == 0 ==> w.st == old(w.st) && (old(w.Quiet()) ==> w.Quiet())
      invariant old(w.Quiet()) && CanPass(old(w.st), w.cfg) ==> attempt == 0
      invariant old(w.Quiet()) && !Born(old(w.st.src)) ==> attempt == 0
      invariant old(w.Quiet()) && Excluded(old(w.st.src)) ==> attempt == 0
    {
      ghost var before := w.st;
      attempts := attempts + 1;
      var one := PassOnce(w, cache);
      GrowsTrans(old(w.st), before, w.st, w.cfg);
      match one {
        case Done(outcome) => return Done(outcome), attempts;
        case Fatal(e) => return Fatal(e), attempts;
        case Again =>
      }
    }
    return Fatal(Stalled), attempts;
  }
}
