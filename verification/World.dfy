/** The two object stores as the mirror's code calls them. Before every call takes
    effect the rest of the world may do anything it is able to: `turns` lists what
    it does, for all lists. A call may be refused, may land without its answer
    arriving, or may be where the process dies; after that nothing lands until a
    restart. Every call keeps `Inv`, so a run that stops anywhere has kept it. */
module World {
  import opened Wrappers
  import opened Layout
  import opened SourceDb
  import opened MirrorState

  datatype Fault = NoFault | Refused | Unacknowledged | Crash

  datatype Turn = Turn(steps: seq<EnvAction>, fault: Fault)

  datatype Fetch<+T> = Found(value: T) | Missing | Failed

  datatype PutResult = Created | AlreadyExists | PutFailed

  datatype CheckpointHandle = CheckpointHandle(id: nat, manifestId: nat)

  class Stores {
    const cfg: Settings
    /** Whether a new checkpoint pins the manifest before the one its creation
        commits, instead of that one. */
    const pinsPrevious: bool
    var st: State
    var turns: seq<Turn>
    var down: bool

    ghost predicate Valid()
      reads this
      ensures Valid() <==> Inv(st, cfg)
    {
      Inv(st, cfg)
    }

    /** Nothing else happens and no call fails. */
    predicate Quiet()
      reads this
    {
      turns == [] && !down
    }

    constructor (cfg: Settings, pinsPrevious: bool, turns: seq<Turn>)
      ensures Valid() && st == EmptyState && this.cfg == cfg && this.turns == turns && !down
    {
      EmptyStateOk(cfg);
      this.cfg := cfg;
      this.pinsPrevious := pinsPrevious;
      this.st := EmptyState;
      this.turns := turns;
      this.down := false;
    }

    /** The process is started again. */
    method Restart()
      modifies this`down
      ensures !down
    {
      down := false;
    }

    /** Time passes, and nothing else. */
    method Wait(d: nat)
      requires Valid()
      modifies this`st
      ensures Valid() && EnvMoves(old(st), st) && st == Waited(old(st), d) && (Quiet() <==> old(Quiet()))
    {
      EnvKeepsInv(st, cfg, AtSource(Tick(d)));
      st := Waited(st, d);
    }

    /** Let the rest of the world run; then say whether the call takes effect
        (`lands`) and whether the caller hears so (`ok`). */
    method Yield() returns (ok: bool, lands: bool)
      requires Valid()
      modifies this
      ensures Valid() && EnvMoves(old(st), st)
      ensures ok ==> lands
      ensures |turns| <= |old(turns)| && (old(turns) != [] ==> |turns| < |old(turns)|)
      ensures old(turns) == [] ==> st == old(st) && down == old(down) && ok == !down
    {
      LaterRefl(st.src);
      if turns == [] {
        return !down, !down;
      }
      var turn := turns[0];
      turns := turns[1..];
      ghost var before := st;
      for i := 0 to |turn.steps|
        invariant Valid() && EnvMoves(before, st)
        invariant turns == old(turns)[1..]
      {
        EnvKeepsInv(st, cfg, turn.steps[i]);
        EnvMovesTrans(before, st, ApplyEnv(st, cfg, turn.steps[i]), cfg);
        st := ApplyEnv(st, cfg, turn.steps[i]);
      }
      down := down || turn.fault.Crash?;
      ok := !down && turn.fault.NoFault?;
      lands := !down && !turn.fault.Refused?;
    }

    /* Reads. */

    /** The target's latest manifest: the watermark. */
    method ReadTargetHead() returns (r: Fetch<Manifest>)
      requires Valid()
      modifies this
      ensures Valid() && EnvMoves(old(st), st)
      ensures old(Quiet()) ==> Quiet() && st == old(st) && !r.Failed?
      ensures r.Found? ==> IsLatest(st.dst, r.value.id) && r.value.id in st.src.hist
                           && st.src.hist[r.value.id] == r.value
      ensures r.Missing? ==> st.dst.manifests == map[]
    {
      var ok, _ := Yield();
      if !ok { return Failed; }
      if st.dst.manifests == map[] { return Missing; }
      var h := MaxOf(st.dst.manifests.Keys);
      assert Held(st, h) && Sound(st.src, h);
      return Found(st.dst.manifests[h].body);
    }

    /** The source's latest manifest. */
    method ReadSourceHead() returns (r: Fetch<Manifest>)
      requires Valid()
      modifies this
      ensures Valid() && EnvMoves(old(st), st)
      ensures old(Quiet()) ==> Quiet() && st == old(st) && !r.Failed?
      ensures r.Found? ==> Born(st.src) && r.value == st.src.hist[st.src.head] && r.value.id == st.src.head
      ensures r.Missing? ==> !Born(st.src)
    {
      var ok, _ := Yield();
      if !ok { return Failed; }
      if !Born(st.src) { return Missing; }
      assert Sound(st.src, st.src.head);
      return Found(st.src.hist[st.src.head]);
    }

    /** Manifest `id` of the source, if its object is still there. */
    method ReadSource(id: nat) returns (r: Fetch<Manifest>)
      requires Valid()
      modifies this
      ensures Valid() && EnvMoves(old(st), st)
      ensures old(Quiet()) ==> Quiet() && st == old(st) && !r.Failed?
      ensures r.Found? ==> id in st.src.live && id in st.src.hist && r.value == st.src.hist[id]
                           && r.value.id == id
      ensures r.Missing? ==> id !in st.src.live
    {
      var ok, _ := Yield();
      if !ok { return Failed; }
      if id !in st.src.live { return Missing; }
      assert Sound(st.src, id);
      return Found(st.src.hist[id]);
    }

    method GetSourceObject(o: DataObject) returns (r: Fetch<()>)
      requires Valid()
      modifies this
      ensures Valid() && EnvMoves(old(st), st)
      ensures old(Quiet()) ==> Quiet() && st == old(st) && !r.Failed?
      ensures |turns| <= |old(turns)| && (old(turns) != [] ==> |turns| < |old(turns)|)
      ensures old(turns) == [] ==> st == old(st)
      ensures r.Found? ==> o in st.src.objs
      ensures r.Missing? ==> o !in st.src.objs
    {
      var ok, _ := Yield();
      if !ok { return Failed; }
      return if o in st.src.objs then Found(()) else Missing;
    }

    method HeadTarget(o: DataObject) returns (r: Fetch<()>)
      requires Valid()
      modifies this
      ensures Valid() && EnvMoves(old(st), st)
      ensures old(Quiet()) ==> Quiet() && st == old(st) && !r.Failed?
      ensures r.Found? ==> o in st.dst.objs
      ensures r.Missing? ==> o !in st.dst.objs
    {
      var ok, _ := Yield();
      if !ok { return Failed; }
      return if o in st.dst.objs then Found(()) else Missing;
    }

    /** LIST of the target's data objects, with their modification times. */
    method ListTargetObjects() returns (r: Fetch<map<DataObject, nat>>)
      requires Valid()
      modifies this
      ensures Valid() && EnvMoves(old(st), st)
      ensures old(Quiet()) ==> Quiet() && st == old(st) && !r.Failed?
      ensures r.Found? ==> r.value == st.dst.objs
      ensures !r.Missing?
    {
      var ok, _ := Yield();
      return if ok then Found(st.dst.objs) else Failed;
    }

    /** LIST of the target's manifests, with their modification times. */
    method ListTargetManifests() returns (r: Fetch<map<nat, nat>>)
      requires Valid()
      modifies this
      ensures Valid() && EnvMoves(old(st), st)
      ensures old(Quiet()) ==> Quiet() && st == old(st) && !r.Failed?
      ensures r.Found? ==> r.value == Listing(st.dst)
      ensures !r.Missing?
    {
      var ok, _ := Yield();
      return if ok then Found(Listing(st.dst)) else Failed;
    }

    method ReadTarget(id: nat) returns (r: Fetch<Manifest>)
      requires Valid()
      modifies this
      ensures Valid() && EnvMoves(old(st), st)
      ensures old(Quiet()) ==> Quiet() && st == old(st) && !r.Failed?
      ensures r.Found? ==> id in st.dst.manifests && id in st.src.hist && r.value == st.src.hist[id]
      ensures r.Missing? ==> id !in st.dst.manifests
    {
      var ok, _ := Yield();
      if !ok { return Failed; }
      if id !in st.dst.manifests { return Missing; }
      assert Held(st, id);
      return Found(st.dst.manifests[id].body);
    }

    /* Writes at the target. */

    /** PUT of a data object, overwriting whatever has that name. */
    method PutObject(o: DataObject) returns (ok: bool)
      requires Valid()
      requires cfg.copier.External? || Explained(st, o)
      modifies this
      ensures Valid() && Grows(old(st), st)
      ensures st.dst.manifests == old(st.dst.manifests) && st.heads == old(st.heads)
      ensures st.frontier == old(st.frontier) && st.adopted == old(st.adopted)
      ensures st.writes == old(st.writes)
      ensures old(Quiet()) ==> ok && Quiet() && st.src == old(st.src)
      ensures ok ==> o in st.dst.objs
    {
      ghost var before := st;
      var lands: bool;
      ok, lands := Yield();
      ExplainedStable(before, st, o);
      if lands {
        ObjectArrives(st, cfg, o);
        LaterRefl(st.src);
        st := WithObject(st, o);
      }
    }

    /** The tail's PUT of WAL file `w`, the next one or one it already passed. */
    method PutTailed(w: nat) returns (ok: bool)
      requires Valid() && st.dst.manifests != map[]
      requires cfg.copier.External? || w <= st.frontier
      modifies this
      ensures Valid() && Grows(old(st), st)
      ensures st.dst.manifests == old(st.dst.manifests) && st.heads == old(st.heads)
      ensures st.adopted == old(st.adopted) && st.writes == old(st.writes)
      ensures |turns| <= |old(turns)|
      ensures old(turns) == [] ==> turns == [] && st.src == old(st.src)
      ensures old(Quiet()) ==> ok && Quiet() && st == Tailed(old(st), w)
      ensures old(st.dst.objs).Keys <= st.dst.objs.Keys
      ensures ok ==> Wal(w) in st.dst.objs && (cfg.copier.External? || w < st.frontier)
    {
      var lands: bool;
      ok, lands := Yield();
      if lands {
        LaterRefl(st.src);
        TailAdvances(st, cfg, w);
        st := Tailed(st, w);
      }
    }

    /** Record that tailing starts, or resumes, at `n`. */
    method RaiseFrontier(n: nat)
      requires Valid() && st.dst.manifests != map[] && Solid(st, n)
      modifies this`st
      ensures Valid() && Grows(old(st), st)
      ensures st == old(st).(frontier := Max(old(st.frontier), n))
    {
      LaterRefl(st.src);
      FrontierRises(st, cfg, n);
      st := st.(frontier := Max(st.frontier, n));
    }

    /** PUT of a manifest with create-if-absent. */
    method CreateManifest(id: nat, body: Manifest, asHead: bool) returns (r: PutResult)
      requires Valid() && id in st.src.hist && body == st.src.hist[id]
      requires Objects(st.src.hist[id]) <= st.dst.objs.Keys && PinsReady(st, id)
      requires asHead ==> HeadReady(st, id)
      modifies this
      ensures Valid() && Grows(old(st), st)
      ensures st.dst.manifests.Keys <= old(st.dst.manifests.Keys) + {id}
      ensures st.frontier == old(st.frontier) && st.adopted == old(st.adopted)
      ensures st.writes == old(st.writes)
      ensures r.Created? ==> id in st.dst.manifests && (asHead ==> id in st.heads)
      ensures r.Created? ==> id !in old(st.dst.manifests)
      ensures r.AlreadyExists? ==> id in old(st.dst.manifests)
      ensures old(Quiet()) ==> Quiet() && st.src == old(st.src) && !r.PutFailed?
    {
      hide Inv, Objects, LivePins, PinsReady, HeadReady, NewPinsAreNew, NoRevival;
      ghost var before := st;
      var ok, lands := Yield();
      ReadyStable(before, st, cfg, id, asHead);
      if !lands { return PutFailed; }
      if id in st.dst.manifests { return if ok then AlreadyExists else PutFailed; }
      ManifestArrives(st, cfg, id, asHead);
      LaterRefl(st.src);
      ghost var mid := st;
      st := WithManifest(st, id, asHead);
      HeadsGrow(mid, cfg, id, asHead);
      GrowsTrans(before, mid, st, cfg);
      return if ok then Created else PutFailed;
    }

    /** DELETE of a manifest at the target; a missing object is no failure. */
    method DeleteManifest(id: nat) returns (ok: bool)
      requires Valid() && SafeToDrop(st, cfg, id)
      modifies this
      ensures Valid() && Shrinks(old(st), st)
      ensures st.dst.manifests == old(st.dst.manifests) || st.dst.manifests == old(st.dst.manifests) - {id}
      ensures ok ==> st.dst.manifests == old(st.dst.manifests) - {id}
      ensures old(st.dst.objs).Keys <= st.dst.objs.Keys
      ensures !cfg.copier.External? ==> st.dst.objs == old(st.dst.objs)
      ensures old(Quiet()) ==>
                ok && Quiet() && st == old(st).(dst := old(st.dst).(manifests := old(st.dst.manifests) - {id}))
    {
      ghost var before := st;
      var lands: bool;
      ok, lands := Yield();
      SafeToDropStable(before, st, cfg, id);
      EnvIsShrinking(before, st);
      if lands {
        ManifestGoes(st, cfg, id);
        ghost var mid := st;
        st := st.(dst := st.dst.(manifests := st.dst.manifests - {id}));
        DropShrinks(mid, st, cfg, id);
        ShrinksTrans(before, mid, st, cfg);
      }
    }

    /** DELETE of a data object at the target. */
    method DeleteObject(o: DataObject) returns (ok: bool)
      requires Valid() && Unneeded(st, o)
      modifies this
      ensures Valid() && Shrinks(old(st), st)
      ensures st.dst.manifests == old(st.dst.manifests)
      ensures old(st.dst.objs).Keys - {o} <= st.dst.objs.Keys
      ensures !cfg.copier.External? ==> st.dst.objs == old(st.dst.objs) || st.dst.objs == old(st.dst.objs) - {o}
      ensures ok && !cfg.copier.External? ==> st.dst.objs == old(st.dst.objs) - {o}
      ensures old(Quiet()) ==>
                ok && Quiet() && st == old(st).(dst := old(st.dst).(objs := old(st.dst.objs) - {o}))
    {
      ghost var before := st;
      var lands: bool;
      ok, lands := Yield();
      UnneededStable(before, st, cfg, o);
      EnvIsShrinking(before, st);
      if lands {
        ObjectGoes(st, cfg, o);
        ghost var mid := st;
        LaterRefl(st.src);
        st := st.(dst := st.dst.(objs := st.dst.objs - {o}));
        ShrinksTrans(before, mid, st, cfg);
      }
    }

    /* The mirror's own checkpoints at the source. */

    /** Commit a manifest the mirror's request caused. */
    method CommitAtSource(m: Manifest)
      requires Valid() && Successor(st.src, m)
      modifies this`st
      ensures Valid() && Grows(old(st), st)
      ensures st == old(st).(src := Committed(old(st.src), m), writes := old(st.writes) + 1)
    {
      CommitKeepsOk(st.src, m);
      SourceMoves(st, cfg, Committed(st.src, m));
      Counted(st.(src := Committed(st.src, m)), cfg, st.writes + 1, st.pins, st.delivered);
      st := st.(src := Committed(st.src, m), writes := st.writes + 1);
    }

    /** Create a checkpoint named for the target and adopt the manifest it pins. */
    method CreateCheckpoint() returns (r: Fetch<CheckpointHandle>)
      requires Valid()
      modifies this
      ensures Valid() && Grows(old(st), st)
      ensures st.dst.manifests == old(st.dst.manifests) && st.heads == old(st.heads)
      ensures st.frontier == old(st.frontier)
      ensures r.Found? ==> Pinned(st, r.value) && (Born(old(st.src)) ==> old(st.src.head) <= r.value.manifestId)
      ensures r.Missing? ==> !Born(st.src)
      ensures st.pins == old(st.pins) ==> st.writes == old(st.writes)
      ensures r.Found? ==> st.pins == old(st.pins) + 1
      ensures old(Quiet()) && Born(old(st.src)) ==>
                r.Found? && Quiet() && QuietlyPinned(old(st), cfg, r.value, pinsPrevious, st)
    {
      hide Inv, NewPinsAreNew, NoRevival, Objects, Successor, Committed, PinManifest;
      ghost var before := st;
      var ok, lands := Yield();
      EnvIsGrowth(before, st);
      if !lands { return Failed; }
      if !Born(st.src) { return if ok then Missing else Failed; }
      HeadExists(st, cfg);
      var pin := if pinsPrevious then st.src.head else st.src.head + 1;
      var mid := st;
      PinKeepsInv(mid, cfg, pin);
      st := WithPin(mid, cfg, pin);
      GrowsTrans(before, mid, st, cfg);
      return if ok then Found(CheckpointHandle(mid.src.nextUuid, pin)) else Failed;
    }

    /** Extend a checkpoint's life. Fails when the entry is gone or has expired. */
    method RefreshCheckpoint(id: nat) returns (ok: bool)
      requires Valid()
      modifies this
      ensures Valid() && Grows(old(st), st)
      ensures st.dst.manifests == old(st.dst.manifests) && st.heads == old(st.heads)
      ensures st.frontier == old(st.frontier) && st.adopted == old(st.adopted)
      ensures old(Quiet()) ==> Quiet()
    {
      hide Inv, SourceOk, Objects, LivePins, NewPinsAreNew, NoRevival, Later;
      ghost var before := st;
      var lands: bool;
      ok, lands := Yield();
      if !lands { return; }
      SourceIsOk(st, cfg);
      if !Born(st.src) { ok := false; return; }
      var prev := st.src.hist[st.src.head];
      var at := Find(prev.checkpoints, id);
      if at == |prev.checkpoints| || !Live(prev.checkpoints[at], st.src.now) {
        ok := false;
        return;
      }
      var entry := prev.checkpoints[at];
      var until := match entry.expire case None => None case Some(t) => Some(Max(t, st.src.now + cfg.lifetime));
      var m := prev.(id := st.src.head + 1,
                     checkpoints := prev.checkpoints[at := entry.(expire := until)]);
      RefreshSucceeds(st.src, at, until, m);
      ghost var mid := st;
      CommitAtSource(m);
      GrowsTrans(before, mid, st, cfg);
    }

    /** Delete a checkpoint. */
    method DeleteCheckpoint(id: nat) returns (ok: bool)
      requires Valid()
      modifies this
      ensures Valid() && Grows(old(st), st)
      ensures st.dst.manifests == old(st.dst.manifests) && st.heads == old(st.heads)
      ensures st.frontier == old(st.frontier) && st.adopted == old(st.adopted)
      ensures old(Quiet()) ==> Quiet() && QuietlyUnpinned(old(st), st, id)
    {
      hide Inv, SourceOk, Objects, LivePins, NewPinsAreNew, NoRevival, Later;
      ghost var before := st;
      var lands: bool;
      ok, lands := Yield();
      if !lands { return; }
      SourceIsOk(st, cfg);
      if !Born(st.src) { ok := false; return; }
      var prev := st.src.hist[st.src.head];
      if Find(prev.checkpoints, id) == |prev.checkpoints| { ok := false; return; }
      DeleteSucceeds(st.src, id);
      ghost var mid := st;
      CommitAtSource(UnpinManifest(st.src, id));
      GrowsTrans(before, mid, st, cfg);
    }
  }

  function Waited(st: State, d: nat): State {
    st.(src := st.src.(now := st.src.now + d))
  }

  function PinEntry(s: Source, cfg: Settings, pin: nat): Checkpoint {
    Checkpoint(s.nextUuid, pin, Some(s.now + cfg.lifetime), s.now, cfg.pinName)
  }

  /** What creating the target's checkpoint commits at the source. */
  function PinManifest(s: Source, cfg: Settings, pin: nat): Manifest
    requires s.head in s.hist
  {
    var prev := s.hist[s.head];
    prev.(id := s.head + 1, checkpoints := prev.checkpoints + [PinEntry(s, cfg, pin)])
  }

  /** The state with the target's checkpoint created and `pin` adopted. */
  function WithPin(st: State, cfg: Settings, pin: nat): State
    requires st.src.head in st.src.hist
  {
    st.(src := Committed(st.src, PinManifest(st.src, cfg, pin)), writes := st.writes + 1,
        pins := st.pins + 1, adopted := Some(pin))
  }

  lemma PinKeepsInv(st: State, cfg: Settings, pin: nat)
    requires Inv(st, cfg) && Born(st.src) && (pin == st.src.head || pin == st.src.head + 1)
    ensures Inv(WithPin(st, cfg, pin), cfg) && Grows(st, WithPin(st, cfg, pin))
    ensures Pinned(WithPin(st, cfg, pin), CheckpointHandle(st.src.nextUuid, pin))
  {
    hide Objects, Successor, NewPinsAreNew, NoRevival, Protected, Ordered, Convex, Held, PointOpen;
    var m := PinManifest(st.src, cfg, pin);
    NewEntrySucceeds(st.src, PinEntry(st.src, cfg, pin), m);
    CommitKeepsOk(st.src, m);
    SourceMoves(st, cfg, Committed(st.src, m));
    var mid := st.(src := Committed(st.src, m));
    Counted(mid, cfg, st.writes + 1, st.pins + 1, st.delivered);
    assert st.adopted.Some? ==> Sound(st.src, st.adopted.value);
    AdoptKeepsInv(mid.(writes := st.writes + 1, pins := st.pins + 1), cfg, pin);
    PinIds(st.src, cfg, pin);
  }

  lemma PinIds(s: Source, cfg: Settings, pin: nat)
    requires s.head in s.hist
    ensures Ids(PinManifest(s, cfg, pin)) == Ids(s.hist[s.head]) + {s.nextUuid}
  {
    var prev, m := s.hist[s.head], PinManifest(s, cfg, pin);
    assert forall c | c in prev.checkpoints :: c in m.checkpoints;
    assert m.checkpoints[|prev.checkpoints|] == PinEntry(s, cfg, pin);
  }

  /** What deleting checkpoint `id` commits at the source. */
  function UnpinManifest(s: Source, id: nat): Manifest
    requires s.head in s.hist
  {
    var prev := s.hist[s.head];
    prev.(id := s.head + 1, checkpoints := Without(prev.checkpoints, id))
  }

  function Without(cs: seq<Checkpoint>, id: nat): seq<Checkpoint> {
    var k := Find(cs, id);
    if k == |cs| then cs else cs[..k] + cs[k + 1..]
  }

  lemma HeadExists(st: State, cfg: Settings)
    requires Inv(st, cfg) && Born(st.src)
    ensures st.src.head in st.src.hist
  {
  }

  function Listing(t: Target): map<nat, nat> {
    map i | i in t.manifests :: t.manifests[i].modified
  }

  /** The position of a checkpoint in a list, or the list's length. */
  function Find(cs: seq<Checkpoint>, id: nat): (k: nat)
    ensures k <= |cs|
    ensures k < |cs| ==> cs[k].id == id
    ensures k == |cs| ==> forall c | c in cs :: c.id != id
  {
    if cs == [] then 0
    else if cs[0].id == id then 0
    else
      assert forall c | c in cs :: c == cs[0] || c in cs[1..];
      1 + Find(cs[1..], id)
  }

  /** After a pin is created: the pinned manifest was the source's latest at or
      just before that moment, and is what the mirror now copies for. */
  ghost predicate Pinned(st: State, pin: CheckpointHandle) {
    && Born(st.src) && st.src.head in st.src.hist
    && pin.manifestId in st.src.hist && pin.manifestId <= st.src.head
    && st.adopted == Some(pin.manifestId)
    && Ids(st.src.hist[pin.manifestId]) <= Ids(st.src.hist[st.src.head])
  }

  /** The pin of an undisturbed pass. */
  ghost predicate QuietlyPinned(was: State, cfg: Settings, pin: CheckpointHandle, previous: bool, st: State)
    requires was.src.head in was.src.hist
  {
    var manifestId := if previous then was.src.head else was.src.head + 1;
    pin == CheckpointHandle(was.src.nextUuid, manifestId) && st == WithPin(was, cfg, manifestId)
  }

  /** The deletion of a listed checkpoint, undisturbed. */
  ghost predicate QuietlyUnpinned(was: State, st: State, id: nat) {
    was.src.head in was.src.hist
    && Find(was.src.hist[was.src.head].checkpoints, id) < |was.src.hist[was.src.head].checkpoints| ==>
      st == was.(src := Committed(was.src, UnpinManifest(was.src, id)), writes := was.writes + 1)
  }

  lemma ExplainedStable(a: State, b: State, o: DataObject)
    requires Later(a.src, b.src) && b.frontier == a.frontier && b.adopted == a.adopted
    requires SourceOk(a.src) && (a.adopted.Some? ==> a.adopted.value in a.src.hist)
    ensures Explained(a, o) ==> Explained(b, o)
  {
    if Explained(a, o) && o.Compacted? {
      var i :| i in a.src.hist && o in Objects(a.src.hist[i]);
      assert b.src.hist[i] == a.src.hist[i];
    }
  }

  lemma ReadyStable(a: State, b: State, cfg: Settings, id: nat, asHead: bool)
    requires Inv(a, cfg) && Inv(b, cfg) && EnvMoves(a, b)
    requires id in a.src.hist && PinsReady(a, id) && (asHead ==> HeadReady(a, id))
    ensures b.src.hist[id] == a.src.hist[id] && PinsReady(b, id) && (asHead ==> HeadReady(b, id))
  {
    assert Sound(a.src, id);
    forall c | c in b.src.hist[id].checkpoints && StillListed(b.src, c)
      ensures StillListed(a.src, c)
    {
      IdsMember(b.src.hist[id], c);
      ListedBetween(b.src, id, a.src.head, b.src.head, c.id);
    }
  }

  /** A committed head was never committed before. */
  lemma HeadsGrow(st: State, cfg: Settings, id: nat, asHead: bool)
    requires Inv(st, cfg) && id in st.src.hist && id !in st.dst.manifests
    requires asHead ==> HeadReady(st, id)
    ensures Grows(st, WithManifest(st, id, asHead))
  {
    LaterRefl(st.src);
    assert PointOpen(st, cfg, id);
  }

  function Tailed(st: State, w: nat): State {
    WithObject(st, Wal(w)).(frontier := if w <= st.frontier then Max(st.frontier, w + 1) else st.frontier)
  }

  /** The target has every WAL file its latest manifest may need below `n`. */
  ghost predicate Solid(st: State, n: nat) {
    forall h: nat, w: nat | IsLatest(st.dst, h) && h in st.src.hist
        && st.src.hist[h].replayAfter < w < n :: Wal(w) in st.dst.objs
  }

  /** The tail copies one more WAL file. */
  lemma TailAdvances(st: State, cfg: Settings, w: nat)
    requires Inv(st, cfg) && st.dst.manifests != map[] && (cfg.copier.External? || w <= st.frontier)
    ensures Inv(Tailed(st, w), cfg)
  {
    var t := Tailed(st, w);
    forall i: nat ensures Held(t, i) { assert Held(st, i); }
    forall r: nat ensures PointOpen(t, cfg, r) { assert PointOpen(st, cfg, r); }
    if !cfg.copier.External? {
      forall o | o in t.dst.objs ensures Explained(t, o) {
        assert o != Wal(w) ==> Explained(st, o);
      }
    }
    assert TailOk(t, cfg) by {
      forall h: nat, v: nat | IsLatest(t.dst, h) && h in t.src.hist
          && t.src.hist[h].replayAfter < v < t.frontier
        ensures Wal(v) in t.dst.objs
      {
        assert IsLatest(st.dst, h);
      }
    }
  }

  lemma FrontierRises(st: State, cfg: Settings, n: nat)
    requires Inv(st, cfg) && st.dst.manifests != map[] && Solid(st, n)
    ensures Inv(st.(frontier := Max(st.frontier, n)), cfg)
  {
    var t := st.(frontier := Max(st.frontier, n));
    forall i: nat ensures Held(t, i) { assert Held(st, i); }
    forall r: nat ensures PointOpen(t, cfg, r) { assert PointOpen(st, cfg, r); }
    if !cfg.copier.External? {
      forall o | o in t.dst.objs ensures Explained(t, o) { assert Explained(st, o); }
    }
  }

  lemma SourceIsOk(st: State, cfg: Settings)
    requires Inv(st, cfg)
    ensures SourceOk(st.src) && (Born(st.src) ==> st.src.head in st.src.hist)
  {
  }

  lemma NewEntrySucceeds(s: Source, c: Checkpoint, m: Manifest)
    requires SourceOk(s) && Born(s) && c.id == s.nextUuid && c.created == s.now
    requires c.manifestId == s.head || c.manifestId == s.head + 1
    requires m == s.hist[s.head].(id := s.head + 1, checkpoints := s.hist[s.head].checkpoints + [c])
    ensures Successor(s, m)
  {
    var prev := s.hist[s.head];
    assert Sound(s, s.head) && Objects(m) == Objects(prev);
    forall x | x in m.checkpoints
      ensures EntryFollows(s, x, m.id)
    {
      assert x == c || (x in prev.checkpoints && Carries(x, x, s.now));
    }
  }

  lemma RefreshSucceeds(s: Source, at: nat, until: Option<nat>, m: Manifest)
    requires SourceOk(s) && Born(s) && at < |s.hist[s.head].checkpoints|
    requires Live(s.hist[s.head].checkpoints[at], s.now)
    requires NoSooner(s.hist[s.head].checkpoints[at].expire, until)
    requires m == s.hist[s.head].(id := s.head + 1, checkpoints := s.hist[s.head].checkpoints[
                    at := s.hist[s.head].checkpoints[at].(expire := until)])
    ensures Successor(s, m)
  {
    var prev := s.hist[s.head];
    assert Sound(s, s.head) && Objects(m) == Objects(prev);
    forall k | 0 <= k < |m.checkpoints|
      ensures EntryFollows(s, m.checkpoints[k], m.id)
    {
      assert prev.checkpoints[k] in prev.checkpoints && Carries(prev.checkpoints[k], m.checkpoints[k], s.now);
    }
  }

  lemma DeleteSucceeds(s: Source, id: nat)
    requires SourceOk(s) && Born(s)
    ensures Successor(s, UnpinManifest(s, id))
  {
    var prev := s.hist[s.head];
    var m := UnpinManifest(s, id);
    assert Sound(s, s.head) && Objects(m) == Objects(prev);
    hide Objects, Ordered, Convex, Protected;
    WithoutIsSmaller(prev, m, id);
    forall x | x in m.checkpoints
      ensures EntryFollows(s, x, m.id)
    {
      assert x in prev.checkpoints && Carries(x, x, s.now);
    }
  }

  lemma WithoutIsSmaller(prev: Manifest, m: Manifest, id: nat)
    requires ListsOnce(prev) && m.checkpoints == Without(prev.checkpoints, id)
    ensures ListsOnce(m) && forall x | x in m.checkpoints :: x in prev.checkpoints
  {
    var k := Find(prev.checkpoints, id);
    assert forall i | 0 <= i < |m.checkpoints| ::
        m.checkpoints[i] == prev.checkpoints[if i < k then i else i + 1];
  }

  /** A pass adopts heads in ascending order, so its claim on WAL files only grows. */
  lemma AdoptKeepsInv(st: State, cfg: Settings, pin: nat)
    requires Inv(st, cfg) && pin in st.src.hist
    requires st.adopted.Some? ==> st.adopted.value in st.src.hist && st.adopted.value <= pin
    ensures Inv(st.(adopted := Some(pin)), cfg)
  {
    var t := st.(adopted := Some(pin));
    forall i: nat ensures Held(t, i) { assert Held(st, i); }
    forall r: nat ensures PointOpen(t, cfg, r) { assert PointOpen(st, cfg, r); }
    if !cfg.copier.External? {
      forall o | o in t.dst.objs ensures Explained(t, o) {
        assert Explained(st, o);
        if st.adopted.Some? {
          assert Ordered(st.src.hist, st.adopted.value, pin);
        }
      }
    }
  }
}
