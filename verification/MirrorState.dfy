/** The state of one mirror: a source, a target, and what has been promised about
    the target so far. `Inv` is the mirror's contract; each lemma below is one
    kind of atomic step and says when that step keeps it. */
module MirrorState {
  import opened Wrappers
  import opened Layout
  import opened SourceDb

  datatype CopierKind = Builtin | Rclone | External

  datatype Settings = Settings(
    keep: Option<nat>, minAge: nat, lifetime: nat, copier: CopierKind, pinName: string)

  /** A manifest at the target, with the time its object was written. */
  datatype Stored = Stored(body: Manifest, modified: nat)

  datatype Target = Target(manifests: map<nat, Stored>, objs: map<DataObject, nat>)

  /** `heads` records every manifest ever committed as the head of a pass, with
      the time of that commit; `frontier` is where WAL tailing has got to;
      `adopted` the newest head any pass has copied for; `writes` counts the
      manifests the mirror itself caused at the source, `pins` the checkpoints among
      them, and `delivered` what an outside replicator has brought. */
  datatype State = State(
    src: Source, dst: Target,
    heads: map<nat, nat>, frontier: nat, adopted: Option<nat>, writes: nat,
    pins: nat, delivered: nat)

  /** What may happen between two store calls of the mirror. */
  datatype EnvAction = AtSource(a: Action) | Replicate(o: DataObject)

  function ApplyEnv(st: State, cfg: Settings, e: EnvAction): State {
    match e
    case AtSource(a) => st.(src := Apply(st.src, a))
    case Replicate(o) =>
      if cfg.copier.External? && o in st.src.objs
      then WithObject(st, o).(delivered := st.delivered + 1)
      else st
  }

  predicate IsLatest(dst: Target, h: nat) {
    h in dst.manifests && forall i | i in dst.manifests :: i <= h
  }

  /** Completeness of one manifest held at the target: its body is the source's,
      its own objects are present, and so is every manifest pinned by a live entry
      whose checkpoint the source still lists. */
  ghost predicate Held(st: State, i: nat) {
    i in st.dst.manifests ==>
      && i in st.src.hist && st.dst.manifests[i].body == st.src.hist[i]
      && Objects(st.src.hist[i]) <= st.dst.objs.Keys
      && forall c | c in st.src.hist[i].checkpoints && StillListed(st.src, c) ::
           c.manifestId in st.dst.manifests
  }

  /** Live now, and the source's latest manifest still lists the checkpoint. */
  predicate StillListed(s: Source, c: Checkpoint) {
    Live(c, s.now) && s.head in s.hist && c.id in Ids(s.hist[s.head])
  }

  /** Whether retention promises the pass head `r`: it is the latest manifest, or
      younger than `keep`. */
  predicate Promised(st: State, cfg: Settings, r: nat) {
    r in st.heads
    && (IsLatest(st.dst, r) || cfg.keep.None? || st.src.now - st.heads[r] < cfg.keep.value)
  }

  /** A promised restore point has its full live closure, also for checkpoints the
      source has deleted since. */
  ghost predicate PointOpen(st: State, cfg: Settings, r: nat) {
    r in st.heads ==>
      && r in st.src.hist && st.heads[r] <= st.src.now
      && (exists h | h in st.dst.manifests :: r <= h)
      && (r in st.dst.manifests ==> st.heads[r] <= st.dst.manifests[r].modified)
      && (Promised(st, cfg, r) ==>
            && r in st.dst.manifests
            && LivePins(st.src.hist[r], st.src.now) <= st.dst.manifests.Keys)
  }

  /** No gap below the tail, and nothing unexplained above it. */
  ghost predicate TailOk(st: State, cfg: Settings) {
    && (st.dst.manifests == map[] ==> st.frontier == 0)
    && (forall h: nat, w: nat | IsLatest(st.dst, h) && h in st.src.hist
            && st.src.hist[h].replayAfter < w < st.frontier :: Wal(w) in st.dst.objs)
    && (st.adopted.Some? ==> st.adopted.value in st.src.hist)
    && (!cfg.copier.External? ==>
          st.delivered == 0 && forall o | o in st.dst.objs :: Explained(st, o))
  }

  /** How an object got to the target without an outside replicator. */
  ghost predicate Explained(st: State, o: DataObject) {
    match o
    case Compacted(_) => Referenced(st.src, o)
    case Wal(w) =>
      w < st.frontier
      || (st.adopted.Some? && st.adopted.value in st.src.hist
          && w < st.src.hist[st.adopted.value].nextWal)
  }

  ghost predicate Inv(st: State, cfg: Settings) {
    && SourceOk(st.src)
    && (forall i :: Held(st, i))
    && (forall r :: PointOpen(st, cfg, r))
    && TailOk(st, cfg)
  }

  const EmptyState := State(EmptySource, Target(map[], map[]), map[], 0, None, 0, 0, 0)

  lemma EmptyStateOk(cfg: Settings)
    ensures Inv(EmptyState, cfg)
  {
    EmptyIsOk();
  }

  /** The completeness invariant of the design, for the latest manifest: its own
      objects and, for each live entry whose checkpoint the source still lists,
      the pinned manifest with its objects. */
  ghost predicate Complete(st: State) {
    forall h | IsLatest(st.dst, h) ::
      && h in st.src.hist && st.dst.manifests[h].body == st.src.hist[h]
      && Objects(st.src.hist[h]) <= st.dst.objs.Keys
      && forall c | c in st.src.hist[h].checkpoints && StillListed(st.src, c) ::
           PresentWhole(st, c.manifestId)
  }

  predicate PresentWhole(st: State, p: nat) {
    p in st.dst.manifests && p in st.src.hist && st.dst.manifests[p].body == st.src.hist[p]
    && Objects(st.src.hist[p]) <= st.dst.objs.Keys
  }

  lemma HeldIsComplete(st: State)
    requires forall i :: Held(st, i)
    ensures Complete(st)
  {
    forall h | IsLatest(st.dst, h)
      ensures h in st.src.hist && st.dst.manifests[h].body == st.src.hist[h]
      ensures Objects(st.src.hist[h]) <= st.dst.objs.Keys
      ensures forall c | c in st.src.hist[h].checkpoints && StillListed(st.src, c) ::
                PresentWhole(st, c.manifestId)
    {
      assert Held(st, h);
      forall c | c in st.src.hist[h].checkpoints && StillListed(st.src, c)
        ensures PresentWhole(st, c.manifestId)
      {
        assert Held(st, c.manifestId);
      }
    }
  }

  lemma InvIsComplete(st: State, cfg: Settings)
    requires Inv(st, cfg)
    ensures Complete(st)
  {
    HeldIsComplete(st);
  }

  /** Completeness spelled out: whoever opens the target at its highest manifest finds
      its body and its objects, and behind every entry that has not expired and that the
      source's latest manifest still lists, the pinned manifest and its objects. */
  lemma CompleteMeans(st: State, h: nat)
    requires Complete(st) && h in st.dst.manifests && forall i | i in st.dst.manifests :: i <= h
    ensures h in st.src.hist && st.dst.manifests[h].body == st.src.hist[h]
    ensures forall o | o in Objects(st.src.hist[h]) :: o in st.dst.objs
    ensures forall c, d | c in st.src.hist[h].checkpoints && (c.expire.None? || c.expire.value > st.src.now)
                          && st.src.head in st.src.hist && d in st.src.hist[st.src.head].checkpoints && d.id == c.id ::
              && c.manifestId in st.dst.manifests && c.manifestId in st.src.hist
              && st.dst.manifests[c.manifestId].body == st.src.hist[c.manifestId]
              && forall o | o in Objects(st.src.hist[c.manifestId]) :: o in st.dst.objs
  {
    assert IsLatest(st.dst, h);
    forall c, d | c in st.src.hist[h].checkpoints && (c.expire.None? || c.expire.value > st.src.now)
                  && st.src.head in st.src.hist && d in st.src.hist[st.src.head].checkpoints && d.id == c.id
      ensures PresentWhole(st, c.manifestId)
    {
      assert StillListed(st.src, c);
    }
  }

  /* Steps that do not touch the target's manifests. */

  lemma SourceMovesHeld(st: State, s: Source, i: nat)
    requires SourceOk(st.src) && Held(st, i) && SourceOk(s) && Later(st.src, s)
    ensures Held(st.(src := s), i)
  {
    if i in st.dst.manifests {
      assert Sound(st.src, i);
      forall c | c in s.hist[i].checkpoints && StillListed(s, c)
        ensures StillListed(st.src, c)
      {
        IdsMember(s.hist[i], c);
        ListedBetween(s, i, st.src.head, s.head, c.id);
      }
    }
  }

  lemma SourceMovesPoint(st: State, cfg: Settings, s: Source, r: nat)
    requires Inv(st, cfg) && SourceOk(s) && Later(st.src, s)
    ensures PointOpen(st.(src := s), cfg, r)
  {
    assert PointOpen(st, cfg, r);
    if Promised(st.(src := s), cfg, r) {
      assert Promised(st, cfg, r);
    }
  }

  lemma SourceMovesTail(st: State, cfg: Settings, s: Source)
    requires Inv(st, cfg) && SourceOk(s) && Later(st.src, s)
    ensures TailOk(st.(src := s), cfg)
  {
    var t := st.(src := s);
    forall h: nat, w: nat | IsLatest(t.dst, h) && h in t.src.hist
        && t.src.hist[h].replayAfter < w < t.frontier
      ensures Wal(w) in t.dst.objs
    {
      assert Held(st, h);
    }
    if !cfg.copier.External? {
      forall o | o in t.dst.objs
        ensures Explained(t, o)
      {
        assert Explained(st, o);
      }
    }
  }

  /** The source may move on whenever it likes. */
  lemma SourceMoves(st: State, cfg: Settings, s: Source)
    requires Inv(st, cfg) && SourceOk(s) && Later(st.src, s)
    ensures Inv(st.(src := s), cfg)
  {
    forall i: nat ensures Held(st.(src := s), i) {
      assert Held(st, i);
      SourceMovesHeld(st, s, i);
    }
    forall r: nat ensures PointOpen(st.(src := s), cfg, r) { SourceMovesPoint(st, cfg, s, r); }
    SourceMovesTail(st, cfg, s);
  }

  /** Counting the mirror's own writes and the deliveries changes nothing else. */
  lemma Counted(st: State, cfg: Settings, writes: nat, pins: nat, delivered: nat)
    requires Inv(st, cfg) && (cfg.copier.External? || delivered == 0)
    ensures Inv(st.(writes := writes, pins := pins, delivered := delivered), cfg)
  {
    var t := st.(writes := writes, pins := pins, delivered := delivered);
    forall i: nat ensures Held(t, i) { assert Held(st, i); }
    forall r: nat ensures PointOpen(t, cfg, r) { assert PointOpen(st, cfg, r); }
    if !cfg.copier.External? {
      forall o | o in t.dst.objs ensures Explained(t, o) { assert Explained(st, o); }
    }
  }

  function WithObject(st: State, o: DataObject): State {
    st.(dst := st.dst.(objs := st.dst.objs[o := st.src.now]))
  }

  /** An object arrives at the target. */
  lemma ObjectArrives(st: State, cfg: Settings, o: DataObject)
    requires Inv(st, cfg)
    requires cfg.copier.External? || Explained(st, o)
    ensures Inv(WithObject(st, o), cfg)
  {
    var t := WithObject(st, o);
    forall i: nat ensures Held(t, i) { assert Held(st, i); }
    forall r: nat ensures PointOpen(t, cfg, r) { assert PointOpen(st, cfg, r); }
    if !cfg.copier.External? {
      forall x | x in t.dst.objs ensures Explained(t, x) {
        assert x != o ==> Explained(st, x);
      }
    }
  }

  /** Everything the outside world does between two calls keeps the contract. */
  lemma EnvKeepsInv(st: State, cfg: Settings, e: EnvAction)
    requires Inv(st, cfg)
    ensures Inv(ApplyEnv(st, cfg, e), cfg)
    ensures EnvMoves(st, ApplyEnv(st, cfg, e))
  {
    match e
    case AtSource(a) =>
      ActionKeepsOk(st.src, a);
      SourceMoves(st, cfg, Apply(st.src, a));
    case Replicate(o) =>
      LaterRefl(st.src);
      if cfg.copier.External? && o in st.src.objs {
        ObjectArrives(st, cfg, o);
        Counted(WithObject(st, o), cfg, st.writes, st.pins, st.delivered + 1);
      }
  }

  /** What the mirror can rely on across any number of outside steps. */
  ghost predicate EnvMoves(a: State, b: State) {
    && Later(a.src, b.src)
    && b.dst.manifests == a.dst.manifests
    && a.dst.objs.Keys <= b.dst.objs.Keys
    && b.heads == a.heads && b.frontier == a.frontier && b.adopted == a.adopted
    && b.writes == a.writes && b.pins == a.pins
    && a.delivered <= b.delivered && (a.delivered == b.delivered ==> b.dst.objs == a.dst.objs)
    && (forall o | o in a.dst.objs :: b.dst.objs[o] == a.dst.objs[o] || b.dst.objs[o] >= a.src.now)
  }

  /** What a pass as a whole does to the state: the source moves on and the target
      only gains. */
  ghost predicate Grows(a: State, b: State) {
    && Later(a.src, b.src)
    && (forall i | i in a.dst.manifests ::
          i in b.dst.manifests && b.dst.manifests[i] == a.dst.manifests[i])
    && a.dst.objs.Keys <= b.dst.objs.Keys
    && (forall r | r in a.heads :: r in b.heads && b.heads[r] == a.heads[r])
    && (forall r | r in b.heads && r !in a.heads :: b.heads[r] >= a.src.now)
    && a.frontier <= b.frontier && a.writes <= b.writes && a.pins <= b.pins
  }

  lemma NothingMoved(a: State, cfg: Settings)
    requires Inv(a, cfg)
    ensures EnvMoves(a, a) && Grows(a, a)
  {
    LaterRefl(a.src);
  }

  lemma EnvIsGrowth(a: State, b: State)
    requires EnvMoves(a, b)
    ensures Grows(a, b)
  {
  }

  lemma {:induction false} GrowsTrans(a: State, b: State, c: State, cfg: Settings)
    requires Inv(a, cfg) && Inv(b, cfg) && Inv(c, cfg) && Grows(a, b) && Grows(b, c)
    ensures Grows(a, c)
  {
    LaterTrans(a.src, b.src, c.src);
  }

  lemma EnvMovesTrans(a: State, b: State, c: State, cfg: Settings)
    requires Inv(a, cfg) && Inv(b, cfg) && Inv(c, cfg) && EnvMoves(a, b) && EnvMoves(b, c)
    ensures EnvMoves(a, c)
  {
    LaterTrans(a.src, b.src, c.src);
  }

  /* Steps that write a manifest at the target. */

  function WithManifest(st: State, i: nat, asHead: bool): State
    requires i in st.src.hist
  {
    st.(dst := st.dst.(manifests := st.dst.manifests[i := Stored(st.src.hist[i], st.src.now)]),
        heads := if asHead then st.heads[i := st.src.now] else st.heads)
  }

  /** The pinned manifests a newly latest `i` needs are there already. */
  ghost predicate PinsReady(st: State, i: nat)
    requires i in st.src.hist
  {
    forall c | c in st.src.hist[i].checkpoints && StillListed(st.src, c) ::
      c.manifestId == i || c.manifestId in st.dst.manifests
  }

  /** What a head commit needs beyond `PinsReady`: every live pin, listed or not. */
  ghost predicate HeadReady(st: State, i: nat)
    requires i in st.src.hist
  {
    && (forall j | j in st.dst.manifests :: j <= i)
    && LivePins(st.src.hist[i], st.src.now) <= st.dst.manifests.Keys + {i}
  }

  lemma ManifestHeld(st: State, i: nat, asHead: bool, k: nat)
    requires Held(st, k) && i in st.src.hist && i !in st.dst.manifests
    requires Objects(st.src.hist[i]) <= st.dst.objs.Keys && PinsReady(st, i)
    ensures Held(WithManifest(st, i, asHead), k)
  {
  }

  lemma ManifestPoint(st: State, cfg: Settings, i: nat, asHead: bool, r: nat)
    requires Inv(st, cfg) && i in st.src.hist && i !in st.dst.manifests
    requires asHead ==> HeadReady(st, i)
    ensures PointOpen(WithManifest(st, i, asHead), cfg, r)
  {
    var t := WithManifest(st, i, asHead);
    assert PointOpen(st, cfg, r);
    if r in st.heads {
      var h :| h in st.dst.manifests && r <= h;
      assert h in t.dst.manifests;
      if Promised(t, cfg, r) && !(asHead && r == i) {
        assert IsLatest(t.dst, r) ==> IsLatest(st.dst, r) by {
          if IsLatest(t.dst, r) {
            assert h <= r;
            forall k | k in st.dst.manifests ensures k <= r { assert k in t.dst.manifests; }
          }
        }
        assert Promised(st, cfg, r);
      }
    }
    if asHead && r == i {
      assert i in t.dst.manifests && r <= i;
    }
  }

  lemma ManifestTail(st: State, cfg: Settings, i: nat, asHead: bool)
    requires Inv(st, cfg) && i in st.src.hist && i !in st.dst.manifests
    ensures TailOk(WithManifest(st, i, asHead), cfg)
  {
    var t := WithManifest(st, i, asHead);
    forall h: nat, w: nat | IsLatest(t.dst, h) && h in t.src.hist
        && t.src.hist[h].replayAfter < w < t.frontier
      ensures Wal(w) in t.dst.objs
    {
      if st.dst.manifests != map[] {
        var was := MaxOf(st.dst.manifests.Keys);
        assert IsLatest(st.dst, was) && Held(st, was);
        assert was in t.dst.manifests;
        assert Ordered(st.src.hist, was, h);
      }
    }
    if !cfg.copier.External? {
      forall o | o in t.dst.objs ensures Explained(t, o) { assert Explained(st, o); }
    }
  }

  /** One create-if-absent PUT of a manifest whose support is in place. */
  lemma ManifestArrives(st: State, cfg: Settings, i: nat, asHead: bool)
    requires Inv(st, cfg) && i in st.src.hist && i !in st.dst.manifests
    requires Objects(st.src.hist[i]) <= st.dst.objs.Keys && PinsReady(st, i)
    requires asHead ==> HeadReady(st, i)
    ensures Inv(WithManifest(st, i, asHead), cfg)
  {
    var t := WithManifest(st, i, asHead);
    forall k: nat ensures Held(t, k) {
      assert Held(st, k);
      ManifestHeld(st, i, asHead, k);
    }
    forall r: nat ensures PointOpen(t, cfg, r) { ManifestPoint(st, cfg, i, asHead, r); }
    ManifestTail(st, cfg, i, asHead);
  }

  /* The closure of a pass. */

  /** The one-level closure of head `head` as judged at `at`: the head and every
      manifest a live entry of it pins. */
  function Members(m: Manifest, at: nat): set<nat> {
    {m.id} + LivePins(m, at)
  }

  /** A pass for `head` has every data object of its closure at the target. */
  ghost predicate Staged(st: State, head: nat, at: nat) {
    && head in st.src.hist && at <= st.src.now
    && forall m | m in Members(st.src.hist[head], at) ::
         m in st.src.hist && m <= head && Objects(st.src.hist[m]) <= st.dst.objs.Keys
  }

  /** Why ascending order works: an entry of an older manifest that the source
      still lists is also a live entry of every head since, and pins a manifest no
      later than its carrier. */
  lemma CarriedPin(s: Source, i: nat, head: nat, at: nat, c: Checkpoint)
    requires SourceOk(s) && i in s.hist && head in s.hist && i <= head && at <= s.now
    requires c in s.hist[i].checkpoints && StillListed(s, c)
    ensures c.manifestId in LivePins(s.hist[head], at) && c.manifestId <= i
  {
    assert Sound(s, i) && Sound(s, head) && Ordered(s.hist, i, head);
    IdsMember(s.hist[i], c);
    ListedBetween(s, i, head, s.head, c.id);
    var d :| d in s.hist[head].checkpoints && d.id == c.id;
    assert SameCheckpoint(c, d) && Live(d, at);
  }

  lemma MemberReady(st: State, head: nat, at: nat, i: nat)
    requires SourceOk(st.src) && Staged(st, head, at) && i in Members(st.src.hist[head], at)
    requires forall j | j in Members(st.src.hist[head], at) && j < i :: j in st.dst.manifests
    ensures i in st.src.hist && PinsReady(st, i)
  {
    forall c | c in st.src.hist[i].checkpoints && StillListed(st.src, c)
      ensures c.manifestId == i || c.manifestId in st.dst.manifests
    {
      CarriedPin(st.src, i, head, at, c);
    }
  }

  lemma LivePinsShrink(m: Manifest, a: nat, b: nat)
    requires a <= b
    ensures LivePins(m, b) <= LivePins(m, a)
  {
  }

  /** `Staged` survives whatever else happens while nothing is deleted. */
  lemma StagedStable(a: State, b: State, head: nat, at: nat)
    requires Staged(a, head, at) && Later(a.src, b.src) && a.dst.objs.Keys <= b.dst.objs.Keys
    ensures Staged(b, head, at) && head in b.src.hist && b.src.hist[head] == a.src.hist[head]
  {
    assert b.src.hist[head] == a.src.hist[head];
  }

  /* Steps that delete at the target. */

  /** Nothing that must stay relies on manifest `id`. */
  ghost predicate SafeToDrop(st: State, cfg: Settings, id: nat) {
    && !IsLatest(st.dst, id)
    && (forall i, c | i in st.dst.manifests && i in st.src.hist && c in st.src.hist[i].checkpoints
                      && StillListed(st.src, c) :: c.manifestId != id)
    && forall r | r in st.heads && Promised(st, cfg, r) && r in st.src.hist ::
         r != id && id !in LivePins(st.src.hist[r], st.src.now)
  }

  /** No manifest at the target references object `o`, and it is no WAL file above
      the latest manifest. */
  ghost predicate Unneeded(st: State, o: DataObject) {
    && (forall i | i in st.dst.manifests && i in st.src.hist :: o !in Objects(st.src.hist[i]))
    && (o.Wal? ==> forall h | IsLatest(st.dst, h) && h in st.src.hist :: o.id < st.src.hist[h].nextWal)
  }

  /** What pruning does to the state: the target loses manifests and objects, but
      never its latest manifest. */
  ghost predicate Shrinks(a: State, b: State) {
    && Later(a.src, b.src)
    && (forall i | i in b.dst.manifests ::
          i in a.dst.manifests && b.dst.manifests[i] == a.dst.manifests[i])
    && (forall h | IsLatest(a.dst, h) :: IsLatest(b.dst, h))
    && b.heads == a.heads && b.frontier == a.frontier && b.adopted == a.adopted
    && b.writes == a.writes
  }

  lemma EnvIsShrinking(a: State, b: State)
    requires EnvMoves(a, b)
    ensures Shrinks(a, b)
  {
  }

  lemma ShrinksTrans(a: State, b: State, c: State, cfg: Settings)
    requires Inv(a, cfg) && Inv(b, cfg) && Inv(c, cfg) && Shrinks(a, b) && Shrinks(b, c)
    ensures Shrinks(a, c)
  {
    LaterTrans(a.src, b.src, c.src);
  }

  lemma SafeToDropStable(a: State, b: State, cfg: Settings, id: nat)
    requires Inv(a, cfg) && Inv(b, cfg) && EnvMoves(a, b) && SafeToDrop(a, cfg, id)
    ensures SafeToDrop(b, cfg, id)
  {
    forall i, c | i in b.dst.manifests && i in b.src.hist && c in b.src.hist[i].checkpoints
                  && StillListed(b.src, c)
      ensures c.manifestId != id
    {
      assert Held(a, i) && Sound(a.src, i);
      IdsMember(b.src.hist[i], c);
      ListedBetween(b.src, i, a.src.head, b.src.head, c.id);
      assert StillListed(a.src, c);
    }
    forall r | r in b.heads && Promised(b, cfg, r) && r in b.src.hist
      ensures r != id && id !in LivePins(b.src.hist[r], b.src.now)
    {
      assert Promised(a, cfg, r) && PointOpen(a, cfg, r);
      LivePinsShrink(b.src.hist[r], a.src.now, b.src.now);
    }
  }

  lemma UnneededStable(a: State, b: State, cfg: Settings, o: DataObject)
    requires Inv(a, cfg) && Inv(b, cfg) && EnvMoves(a, b) && Unneeded(a, o)
    ensures Unneeded(b, o)
  {
    forall i | i in b.dst.manifests && i in b.src.hist
      ensures o !in Objects(b.src.hist[i])
      ensures i in a.src.hist && b.src.hist[i] == a.src.hist[i]
    {
      assert Held(a, i);
    }
  }

  lemma GoneHeld(st: State, cfg: Settings, id: nat, k: nat)
    requires Inv(st, cfg) && SafeToDrop(st, cfg, id)
    ensures Held(st.(dst := st.dst.(manifests := st.dst.manifests - {id})), k)
  {
    assert Held(st, k);
  }

  lemma GonePoint(st: State, cfg: Settings, id: nat, r: nat)
    requires Inv(st, cfg) && SafeToDrop(st, cfg, id)
    ensures PointOpen(st.(dst := st.dst.(manifests := st.dst.manifests - {id})), cfg, r)
  {
    var t := st.(dst := st.dst.(manifests := st.dst.manifests - {id}));
    assert PointOpen(st, cfg, r);
    if r in st.heads {
      LatestStays(st, id);
      var h := MaxOf(st.dst.manifests.Keys);
      assert IsLatest(st.dst, h) && h in t.dst.manifests && r <= h;
      if Promised(t, cfg, r) {
        assert IsLatest(t.dst, r) ==> r == h;
        assert Promised(st, cfg, r);
      }
    }
  }

  lemma LatestStays(st: State, id: nat)
    requires !IsLatest(st.dst, id)
    ensures forall h | IsLatest(st.dst, h) ::
              IsLatest(st.dst.(manifests := st.dst.manifests - {id}), h)
  {
  }

  /** A manifest nothing relies on may go. */
  lemma ManifestGoes(st: State, cfg: Settings, id: nat)
    requires Inv(st, cfg) && SafeToDrop(st, cfg, id)
    ensures Inv(st.(dst := st.dst.(manifests := st.dst.manifests - {id})), cfg)
  {
    var t := st.(dst := st.dst.(manifests := st.dst.manifests - {id}));
    forall k: nat ensures Held(t, k) { GoneHeld(st, cfg, id, k); }
    forall r: nat ensures PointOpen(t, cfg, r) { GonePoint(st, cfg, id, r); }
    GoneTail(st, cfg, id);
  }

  lemma GoneTail(st: State, cfg: Settings, id: nat)
    requires Inv(st, cfg) && SafeToDrop(st, cfg, id)
    ensures TailOk(st.(dst := st.dst.(manifests := st.dst.manifests - {id})), cfg)
  {
    var t := st.(dst := st.dst.(manifests := st.dst.manifests - {id}));
    LatestStays(st, id);
    if st.dst.manifests != map[] {
      var h := MaxOf(st.dst.manifests.Keys);
      assert IsLatest(st.dst, h) && h in t.dst.manifests;
      assert forall k | IsLatest(t.dst, k) :: k == h;
    }
    if !cfg.copier.External? {
      forall o | o in t.dst.objs ensures Explained(t, o) { assert Explained(st, o); }
    }
  }

  lemma DropShrinks(a: State, b: State, cfg: Settings, id: nat)
    requires Inv(a, cfg) && SafeToDrop(a, cfg, id)
    requires b == a.(dst := a.dst.(manifests := a.dst.manifests - {id}))
    ensures Shrinks(a, b)
  {
    LaterRefl(a.src);
    LatestStays(a, id);
  }

  /** An object nothing references may go. */
  lemma ObjectGoes(st: State, cfg: Settings, o: DataObject)
    requires Inv(st, cfg) && Unneeded(st, o)
    ensures Inv(st.(dst := st.dst.(objs := st.dst.objs - {o})), cfg)
  {
    var t := st.(dst := st.dst.(objs := st.dst.objs - {o}));
    forall k: nat ensures Held(t, k) { assert Held(st, k); }
    forall r: nat ensures PointOpen(t, cfg, r) { assert PointOpen(st, cfg, r); }
    if !cfg.copier.External? {
      forall x | x in t.dst.objs ensures Explained(t, x) { assert Explained(st, x); }
    }
    assert TailOk(t, cfg) by {
      forall h: nat, w: nat | IsLatest(t.dst, h) && h in t.src.hist
          && t.src.hist[h].replayAfter < w < t.frontier
        ensures Wal(w) in t.dst.objs
      {
        assert IsLatest(st.dst, h);
        assert w < st.src.hist[h].nextWal ==>
            Wal(w) in WalWindow(st.src.hist[h].replayAfter, st.src.hist[h].nextWal);
      }
    }
  }
}
