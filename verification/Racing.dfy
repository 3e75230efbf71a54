/** Any number of sync passes racing on one source and one target, interleaved call
    by call, with nothing pruned. Reading an object at the source and writing it at
    the target are two calls, and so are reading a manifest, its create-if-absent PUT
    and the comparing read when the id is taken. Each task works from what it read: its
    watermark may be stale, its commit list is frozen, its cached manifests may be gone
    at the source, and it may restart or die anywhere. */
module Racing {
  import opened Wrappers
  import opened Layout
  import opened SourceDb
  import opened MirrorState
  import opened World
  import opened Pass

  /** Where one pass stands, with what it has read so far: `hand` are the objects it
      has read at the source and not yet written, `body` the manifest it is about to
      write or compare. */
  datatype Task =
    | Idle
    | Marked(watermark: Option<Manifest>)
    | Chosen(watermark: Option<Manifest>, head: Manifest, pin: Option<nat>)
    | Diffing(watermark: Option<Manifest>, head: Manifest, pin: Option<nat>, at: nat, bodies: map<nat, Manifest>)
    | Working(watermark: Option<Manifest>, head: Manifest, pin: Option<nat>, at: nat,
              need: set<DataObject>, hand: set<DataObject>)
    | PinHeld(watermark: Option<Manifest>, id: nat, manifestId: nat)
    | Landing(head: Manifest, pin: Option<nat>, at: nat, rest: set<nat>)
    | Carrying(head: Manifest, pin: Option<nat>, at: nat, rest: set<nat>, body: Manifest)
    | Comparing(head: Manifest, pin: Option<nat>, at: nat, rest: set<nat>, body: Manifest)
    | Finished(head: Manifest, pin: Option<nat>, at: nat)
    | Forked

  /** A task with its manifest cache, which outlives restarts. */
  datatype Worker = Worker(task: Task, cache: map<nat, Manifest>)

  datatype Race = Race(st: State, workers: seq<Worker>)

  /** One atomic step: of the rest of the world, or of task `t`. */
  datatype Move =
    | Outside(e: EnvAction)
    | ReadWatermark(t: nat)
    | ReadHead(t: nat)
    | StartDiff(t: nat)
    | ReadPin(t: nat, id: nat)
    | PlanIt(t: nat)
    | Probe(t: nat, o: DataObject)
    | PinSource(t: nat, previous: bool)
    | ReadPinned(t: nat)
    | GetObject(t: nat, o: DataObject)
    | PutObject(t: nat, o: DataObject)
    | AllCopied(t: nat)
    | GetBody(t: nat)
    | PutBody(t: nat)
    | CompareBody(t: nat)
    | Unpin(t: nat)
    | Restart(t: nat)
    | Forget(t: nat)

  /** The objects of the closure the watermark does not prove present, from the
      manifests read. */
  function Candidates(h: map<nat, Manifest>, head: Manifest, w: Option<Manifest>, at: nat): set<DataObject> {
    (set k, o | k in Members(head, at) && k in h && o in Objects(h[k]) :: o)
    - set p, o | p in Vouched(head, w, at) && p in h && o in Objects(h[p]) :: o
  }

  function WithMark(bodies: map<nat, Manifest>, w: Option<Manifest>): map<nat, Manifest> {
    match w case None => bodies case Some(m) => bodies[m.id := m]
  }

  /** Manifest `id` as a task reads it: from its cache, or at the source. */
  function Fetched(s: Source, cache: map<nat, Manifest>, id: nat): Option<Manifest> {
    if id in cache then Some(cache[id])
    else if id in s.live && id in s.hist then Some(s.hist[id])
    else None
  }

  function PutManifest(st: State, id: nat, body: Manifest): State {
    st.(dst := st.dst.(manifests := st.dst.manifests[id := Stored(body, st.src.now)]))
  }

  /** Steps 1 to 3 and the pin: what a task reads and plans, on its own state and its
      cache; only creating the pin touches the world. */
  function PlanStep(cfg: Settings, st: State, w: Worker, m: Move): (r: (State, Worker)) {
    match (w.task, m)
    case (Idle, ReadWatermark(_)) =>
      var mark :=
        if st.dst.manifests == map[] then None else Some(st.dst.manifests[MaxOf(st.dst.manifests.Keys)].body);
      (st, w.(task := Marked(mark)))
    case (Marked(mark), ReadHead(_)) =>
      if st.src.head !in st.src.hist || !Accepted(st.src.hist[st.src.head]) then (st, w.(task := Idle))
      else
        var head := st.src.hist[st.src.head];
        if mark.Some? && mark.value.id > head.id then (st, w.(task := Forked))
        else if mark.Some? && mark.value.id == head.id then (st, w.(task := Idle))
        else (st, w.(task := Chosen(mark, head, None)))
    case (Chosen(mark, head, pin), StartDiff(_)) =>
      (st, w.(task := Diffing(mark, head, pin, st.src.now, map[head.id := head])))
    case (Diffing(mark, head, pin, at, bodies), ReadPin(_, id)) =>
      if id !in LivePins(head, at) || id in bodies then (st, w)
      else
        (match Fetched(st.src, w.cache, id)
         case None => (st, w.(task := Idle))
         case Some(body) => (st, Worker(Diffing(mark, head, pin, at, bodies[id := body]), w.cache[id := body])))
    case (Diffing(mark, head, pin, at, bodies), PlanIt(_)) =>
      if !(Members(head, at) <= bodies.Keys) then (st, w)
      else (st, w.(task := Working(mark, head, pin, at, Candidates(WithMark(bodies, mark), head, mark, at), {})))
    case (Working(mark, head, None, at, need, _), PinSource(_, previous)) =>
      if need == {} || st.src.head !in st.src.hist then (st, w)
      else
        var id := if previous then st.src.head else st.src.head + 1;
        (st.(src := Committed(st.src, PinManifest(st.src, cfg, id))), w.(task := PinHeld(mark, st.src.nextUuid, id)))
    case (PinHeld(mark, id, manifestId), ReadPinned(_)) =>
      (match Fetched(st.src, w.cache, manifestId)
       case None => (st, w.(task := Idle))
       case Some(body) => (st, Worker(Chosen(mark, body, Some(id)), w.cache[manifestId := body])))
    case _ => (st, w)
  }

  /** Copying: probing the target, reading at the source, writing at the target. */
  function CopyStep(cfg: Settings, st: State, p: Task, m: Move): (r: (State, Task)) {
    match (p, m)
    case (Working(mark, head, pin, at, need, hand), Probe(_, o)) =>
      if o in st.dst.objs && (o.Wal? || cfg.copier.External?)
      then (st, Working(mark, head, pin, at, need - {o}, hand))
      else (st, p)
    case (Working(mark, head, Some(id), at, need, hand), GetObject(_, o)) =>
      if o !in need then (st, p)
      else if o in st.src.objs then (st, Working(mark, head, Some(id), at, need, hand + {o}))
      else (st, Idle)
    case (Working(mark, head, Some(id), at, need, hand), PutObject(_, o)) =>
      if o !in hand then (st, p)
      else (WithObject(st, o), Working(mark, head, Some(id), at, need - {o}, hand - {o}))
    case (Working(mark, head, pin, at, need, _), AllCopied(_)) =>
      if need != {} then (st, p)
      else (st, Landing(head, pin, at, Members(head, at) - Vouched(head, mark, at)))
    case _ => (st, p)
  }

  /** Committing, one call at a time, and the unpin. */
  function CommitStep(st: State, p: Task, m: Move): (r: (State, Task)) {
    match (p, m)
    case (Landing(head, pin, at, rest), GetBody(_)) =>
      if rest == {} then (st, Finished(head, pin, at))
      else
        var id := MinOf(rest);
        if id in st.src.live && id in st.src.hist then (st, Carrying(head, pin, at, rest, st.src.hist[id]))
        else (st, Idle)
    case (Carrying(head, pin, at, rest, body), PutBody(_)) =>
      if rest == {} then (st, p)
      else
        var id := MinOf(rest);
        if id in st.dst.manifests then (st, Comparing(head, pin, at, rest, body))
        else (PutManifest(st, id, body), Landing(head, pin, at, rest - {id}))
    case (Comparing(head, pin, at, rest, body), CompareBody(_)) =>
      if rest == {} || MinOf(rest) !in st.dst.manifests then (st, Idle)
      else if st.dst.manifests[MinOf(rest)].body == body then (st, Landing(head, pin, at, rest - {MinOf(rest)}))
      else (st, Forked)
    case (Finished(_, Some(id), _), Unpin(_)) =>
      if Listed(st.src, id) then (st.(src := Committed(st.src, UnpinManifest(st.src, id))), Idle) else (st, Idle)
    case _ => (st, p)
  }

  predicate IsCopyMove(m: Move) {
    m.Probe? || m.GetObject? || m.PutObject? || m.AllCopied?
  }

  predicate IsCommitMove(m: Move) {
    m.GetBody? || m.PutBody? || m.CompareBody? || m.Unpin?
  }

  /** What one task does with one call. */
  function TaskStep(cfg: Settings, st: State, w: Worker, m: Move): (r: (State, Worker)) {
    if m.Restart? then (st, if w.task.Forked? then w else w.(task := Idle))
    else if m.Forget? then (st, if w.task.Idle? then w.(cache := map[]) else w)
    else if IsCopyMove(m) then
      var (b, q) := CopyStep(cfg, st, w.task, m);
      (b, w.(task := q))
    else if IsCommitMove(m) then
      var (b, q) := CommitStep(st, w.task, m);
      (b, w.(task := q))
    else PlanStep(cfg, st, w, m)
  }

  function Step(cfg: Settings, r: Race, m: Move): Race {
    if m.Outside? then r.(st := ApplyEnv(r.st, cfg, m.e))
    else if m.t >= |r.workers| then r
    else
      var (st, w) := TaskStep(cfg, r.st, r.workers[m.t], m);
      Race(st, r.workers[m.t := w])
  }

  function RunRace(cfg: Settings, r: Race, moves: seq<Move>): Race
    decreases |moves|
  {
    if moves == [] then r else RunRace(cfg, Step(cfg, r, moves[0]), moves[1..])
  }

  /* The invariant: what each task relies on. */

  ghost predicate WorldOk(st: State) {
    SourceOk(st.src) && forall i :: Held(st, i)
  }

  ghost predicate Known(st: State, m: Manifest) {
    m.id in st.src.hist && m == st.src.hist[m.id]
  }

  ghost predicate Short(st: State, head: Manifest, at: nat, need: set<DataObject>) {
    forall k | k in Members(head, at) ::
      k in st.src.hist && k <= head.id && Objects(st.src.hist[k]) <= st.dst.objs.Keys + need
  }

  /** Bodies that were read are the source's, whether or not it still has them. */
  ghost predicate BodiesOk(st: State, bodies: map<nat, Manifest>) {
    forall i | i in bodies :: i in st.src.hist && bodies[i] == st.src.hist[i]
  }

  ghost predicate LandingOk(st: State, head: Manifest, at: nat, rest: set<nat>) {
    Known(st, head) && Staged(st, head.id, at) && rest <= Members(head, at)
    && forall k | k in Members(head, at) :: k in rest || k in st.dst.manifests
  }

  ghost predicate BodyOk(st: State, rest: set<nat>, body: Manifest) {
    rest != {} && MinOf(rest) in st.src.hist && body == st.src.hist[MinOf(rest)]
  }

  ghost predicate VouchedWhole(st: State, head: Manifest, w: Option<Manifest>, at: nat) {
    forall p | p in Vouched(head, w, at) :: PresentWhole(st, p)
  }

  ghost predicate TaskOk(st: State, p: Task) {
    match p
    case Idle => true
    case Forked => false
    case Marked(w) => w.Some? ==> AtTarget(st, w.value)
    case PinHeld(w, _, m) => m in st.src.hist && Covered(st, st.src.hist[m], w)
    case Chosen(w, head, _) => Known(st, head) && Covered(st, head, w)
    case Diffing(w, head, _, at, bodies) =>
      Known(st, head) && Covered(st, head, w) && at <= st.src.now && BodiesOk(st, bodies)
          && VouchedWhole(st, head, w, at)
    case Working(w, head, _, at, need, _) =>
      Known(st, head) && Covered(st, head, w) && at <= st.src.now && Short(st, head, at, need)
          && VouchedWhole(st, head, w, at)
    case Landing(head, _, at, rest) => LandingOk(st, head, at, rest)
    case Carrying(head, _, at, rest, body) => LandingOk(st, head, at, rest) && BodyOk(st, rest, body)
    case Comparing(head, _, at, rest, body) => LandingOk(st, head, at, rest) && BodyOk(st, rest, body)
    case Finished(head, _, at) =>
      Known(st, head) && forall k | k in Members(head, at) :: PresentWhole(st, k)
  }

  ghost predicate WorkerOk(st: State, w: Worker) {
    TaskOk(st, w.task) && BodiesOk(st, w.cache)
  }

  ghost predicate RaceOk(r: Race) {
    WorldOk(r.st) && forall i | 0 <= i < |r.workers| :: WorkerOk(r.st, r.workers[i])
  }

  /** All that the other parties ever do to what a task relies on. */
  ghost predicate OnlyAdds(a: State, b: State) {
    && Later(a.src, b.src)
    && (forall i | i in a.dst.manifests :: i in b.dst.manifests && b.dst.manifests[i] == a.dst.manifests[i])
    && a.dst.objs.Keys <= b.dst.objs.Keys
  }

  lemma CoveredLasts(a: State, b: State, head: Manifest, w: Option<Manifest>)
    requires OnlyAdds(a, b) && Covered(a, head, w)
    ensures Covered(b, head, w)
  {
  }

  /** What a task has established, no other party takes away. */
  lemma TaskLasts(a: State, b: State, p: Task)
    requires WorldOk(a) && OnlyAdds(a, b) && TaskOk(a, p)
    ensures TaskOk(b, p)
  {
    hide SourceOk, NewPinsAreNew, NoRevival, Objects, Held, LivePins, Vouched, Covered, Ids;
    if p.Chosen? || p.Diffing? || p.Working? {
      CoveredLasts(a, b, p.head, p.watermark);
    } else if p.PinHeld? {
      CoveredLasts(a, b, a.src.hist[p.manifestId], p.watermark);
    } else if p.Landing? || p.Carrying? || p.Comparing? {
      StagedStable(a, b, p.head.id, p.at);
    }
    if p.Diffing? || p.Working? {
      forall q | q in Vouched(p.head, p.watermark, p.at) ensures PresentWhole(b, q) {
        assert PresentWhole(a, q);
      }
    } else if p.Finished? {
      forall k | k in Members(p.head, p.at) ensures PresentWhole(b, k) {
        assert PresentWhole(a, k);
      }
    }
  }

  lemma WorkerLasts(a: State, b: State, w: Worker)
    requires WorldOk(a) && OnlyAdds(a, b) && WorkerOk(a, w)
    ensures WorkerOk(b, w)
  {
    TaskLasts(a, b, w.task);
  }

  /* One step at a time. */

  lemma SourceStepOk(st: State, s: Source)
    requires WorldOk(st) && SourceOk(s) && Later(st.src, s)
    ensures WorldOk(st.(src := s)) && OnlyAdds(st, st.(src := s))
  {
    forall i: nat ensures Held(st.(src := s), i) {
      assert Held(st, i);
      SourceMovesHeld(st, s, i);
    }
  }

  lemma ObjectStepOk(st: State, o: DataObject)
    requires WorldOk(st)
    ensures WorldOk(WithObject(st, o)) && OnlyAdds(st, WithObject(st, o))
  {
    LaterRefl(st.src);
    forall i: nat ensures Held(WithObject(st, o), i) { assert Held(st, i); }
  }

  lemma NothingStepOk(st: State)
    requires WorldOk(st)
    ensures OnlyAdds(st, st)
  {
    LaterRefl(st.src);
  }

  lemma OutsideOk(cfg: Settings, st: State, e: EnvAction)
    requires WorldOk(st)
    ensures WorldOk(ApplyEnv(st, cfg, e)) && OnlyAdds(st, ApplyEnv(st, cfg, e))
  {
    NothingStepOk(st);
    match e
    case AtSource(a) =>
      ActionKeepsOk(st.src, a);
      SourceStepOk(st, Apply(st.src, a));
    case Replicate(o) =>
      ObjectStepOk(st, o);
      var b := WithObject(st, o).(delivered := st.delivered + 1);
      forall i: nat ensures Held(b, i) { assert Held(WithObject(st, o), i); }
  }

  lemma ReadWatermarkOk(cfg: Settings, st: State, w: Worker, m: Move)
    requires WorldOk(st) && WorkerOk(st, w) && w.task.Idle? && m.ReadWatermark?
    ensures WorkerOk(st, PlanStep(cfg, st, w, m).1)
  {
    if st.dst.manifests != map[] {
      var h := MaxOf(st.dst.manifests.Keys);
      assert Held(st, h) && Sound(st.src, h);
    }
  }

  lemma ReadHeadOk(cfg: Settings, st: State, w: Worker, m: Move)
    requires WorldOk(st) && WorkerOk(st, w) && w.task.Marked? && m.ReadHead?
    ensures WorkerOk(st, PlanStep(cfg, st, w, m).1)
  {
    if st.src.head in st.src.hist {
      assert Sound(st.src, st.src.head);
      HeadCovered(st, st.src.hist[st.src.head], w.task.watermark);
      assert w.task.watermark.Some? ==> Sound(st.src, w.task.watermark.value.id);
    }
  }

  lemma StartDiffOk(cfg: Settings, st: State, w: Worker, m: Move)
    requires WorldOk(st) && WorkerOk(st, w) && w.task.Chosen? && m.StartDiff?
    ensures WorkerOk(st, PlanStep(cfg, st, w, m).1)
  {
    VouchedPresent(st, w.task.head, w.task.watermark, st.src.now);
  }

  /** A manifest from the cache is as good as one from the source. */
  lemma ReadPinOk(cfg: Settings, st: State, w: Worker, m: Move)
    requires WorldOk(st) && WorkerOk(st, w) && w.task.Diffing? && m.ReadPin?
    ensures WorkerOk(st, PlanStep(cfg, st, w, m).1)
  {
    hide WorldOk, Covered, VouchedWhole, Known, LivePins;
  }

  lemma ReadPinnedOk(cfg: Settings, st: State, w: Worker, m: Move)
    requires WorldOk(st) && WorkerOk(st, w) && w.task.PinHeld? && m.ReadPinned?
    ensures WorkerOk(st, PlanStep(cfg, st, w, m).1)
  {
    assert Sound(st.src, w.task.manifestId);
    hide Covered, Objects;
  }

  /** Subtracting the watermark leaves nothing of the closure out. */
  lemma PlanOk(st: State, head: Manifest, w: Option<Manifest>, at: nat, bodies: map<nat, Manifest>)
    requires WorldOk(st) && Known(st, head) && Covered(st, head, w) && BodiesOk(st, bodies)
    requires VouchedWhole(st, head, w, at) && Members(head, at) <= bodies.Keys
    ensures Short(st, head, at, Candidates(WithMark(bodies, w), head, w, at))
  {
    assert w.Some? ==> AtTarget(st, w.value);
    assert Sound(st.src, head.id);
    hide WorldOk, Held, Objects, Vouched, Covered, SourceOk;
    var h := WithMark(bodies, w);
    var need := Candidates(h, head, w, at);
    forall k | k in Members(head, at)
      ensures k in st.src.hist && k <= head.id && Objects(st.src.hist[k]) <= st.dst.objs.Keys + need
    {
      assert h[k] == st.src.hist[k];
      forall o | o in Objects(st.src.hist[k]) ensures o in st.dst.objs.Keys + need {
        if o !in need {
          var q :| q in Vouched(head, w, at) && q in h && o in Objects(h[q]);
          assert PresentWhole(st, q) && h[q] == st.src.hist[q];
        }
      }
    }
  }

  lemma PlanItOk(cfg: Settings, st: State, w: Worker, m: Move)
    requires WorldOk(st) && WorkerOk(st, w) && w.task.Diffing? && m.PlanIt?
    ensures WorkerOk(st, PlanStep(cfg, st, w, m).1)
  {
    if Members(w.task.head, w.task.at) <= w.task.bodies.Keys {
      PlanOk(st, w.task.head, w.task.watermark, w.task.at, w.task.bodies);
    }
    hide WorldOk, Covered, Short, VouchedWhole, Known, Members, Candidates;
  }

  lemma PinCommitted(cfg: Settings, st: State, id: nat) returns (b: State)
    requires WorldOk(st) && st.src.head in st.src.hist && (id == st.src.head || id == st.src.head + 1)
    ensures b == st.(src := Committed(st.src, PinManifest(st.src, cfg, id))) && WorldOk(b) && OnlyAdds(st, b)
    ensures id in b.src.hist && b.src.head in b.src.hist && Ids(b.src.hist[id]) <= Ids(b.src.hist[b.src.head])
  {
    hide Objects, NewPinsAreNew, NoRevival, Held;
    var body := PinManifest(st.src, cfg, id);
    NewEntrySucceeds(st.src, PinEntry(st.src, cfg, id), body);
    CommitKeepsOk(st.src, body);
    b := st.(src := Committed(st.src, body));
    SourceStepOk(st, b.src);
    assert forall c | c in st.src.hist[st.src.head].checkpoints :: c in body.checkpoints;
  }

  /** Creating the pin commits one more source manifest, and the watermark's cover
      carries over to the manifest it pins. */
  lemma PinOk(cfg: Settings, st: State, w: Worker, m: Move)
    requires WorldOk(st) && WorkerOk(st, w) && w.task.Working? && w.task.pin.None? && m.PinSource?
    ensures var (b, q) := PlanStep(cfg, st, w, m); WorldOk(b) && OnlyAdds(st, b) && WorkerOk(b, q)
  {
    hide *;
    NothingStepOk(st);
    WorkingCovered(st, w);
    PinStepIs(cfg, st, w, m);
    if w.task.need != {} && st.src.head in st.src.hist {
      var id := if m.previous then st.src.head else st.src.head + 1;
      var b := PinCommitted(cfg, st, id);
      PinnedCovers(st, b, w.task.head, w.task.watermark, id);
      CacheLasts(st, b, w.cache);
      PinHeldOk(b, w.(task := PinHeld(w.task.watermark, st.src.nextUuid, id)));
    }
  }

  lemma WorkingCovered(st: State, w: Worker)
    requires WorkerOk(st, w) && w.task.Working?
    ensures Covered(st, w.task.head, w.task.watermark) && BodiesOk(st, w.cache)
  {
  }

  lemma PinStepIs(cfg: Settings, st: State, w: Worker, m: Move)
    requires w.task.Working? && w.task.pin.None? && m.PinSource?
    ensures PlanStep(cfg, st, w, m) ==
            if w.task.need == {} || st.src.head !in st.src.hist then (st, w)
            else
              var id := if m.previous then st.src.head else st.src.head + 1;
              (st.(src := Committed(st.src, PinManifest(st.src, cfg, id))),
               w.(task := PinHeld(w.task.watermark, st.src.nextUuid, id)))
  {
  }

  lemma PinHeldOk(b: State, w: Worker)
    requires w.task.PinHeld? && w.task.manifestId in b.src.hist && BodiesOk(b, w.cache)
    requires Covered(b, b.src.hist[w.task.manifestId], w.task.watermark)
    ensures WorkerOk(b, w)
  {
  }

  lemma CacheLasts(a: State, b: State, cache: map<nat, Manifest>)
    requires OnlyAdds(a, b) && BodiesOk(a, cache)
    ensures BodiesOk(b, cache)
  {
  }

  lemma PinnedCovers(st: State, b: State, head: Manifest, w: Option<Manifest>, id: nat)
    requires WorldOk(b) && OnlyAdds(st, b) && Covered(st, head, w) && b.src.head in b.src.hist
    requires id in b.src.hist && Ids(b.src.hist[id]) <= Ids(b.src.hist[b.src.head])
    ensures Covered(b, b.src.hist[id], w)
  {
    CoveredLasts(st, b, head, w);
    HeadCovered(b, b.src.hist[id], w);
  }

  lemma UnpinOk(st: State, p: Task, m: Move)
    requires WorldOk(st) && p.Finished? && p.pin.Some? && m.Unpin?
    ensures WorldOk(CommitStep(st, p, m).0) && OnlyAdds(st, CommitStep(st, p, m).0)
  {
    NothingStepOk(st);
    if Listed(st.src, p.pin.value) {
      DeleteSucceeds(st.src, p.pin.value);
      CommitKeepsOk(st.src, UnpinManifest(st.src, p.pin.value));
      SourceStepOk(st, Committed(st.src, UnpinManifest(st.src, p.pin.value)));
    }
  }

  lemma GetBodyOk(st: State, p: Task, m: Move)
    requires WorldOk(st) && TaskOk(st, p) && p.Landing? && m.GetBody?
    ensures TaskOk(st, CommitStep(st, p, m).1)
  {
    hide Objects, LivePins;
    if p.rest == {} {
      forall k | k in Members(p.head, p.at) ensures PresentWhole(st, k) {
        assert Held(st, k);
      }
    }
  }

  /** The smallest manifest of a frozen list may always be committed, however far the
      source and the other tasks have moved on since its body was read, and also when
      the source no longer has it. */
  lemma PutBodyOk(st: State, p: Task, m: Move)
    requires WorldOk(st) && TaskOk(st, p) && p.Carrying? && m.PutBody?
    ensures var (b, q) := CommitStep(st, p, m); WorldOk(b) && OnlyAdds(st, b) && TaskOk(b, q)
  {
    hide Objects, LivePins;
    NothingStepOk(st);
    var id := MinOf(p.rest);
    if id !in st.dst.manifests {
      MemberReady(st, p.head.id, p.at, id);
      var b := WithManifest(st, id, false);
      assert PutManifest(st, id, p.body) == b;
      forall k: nat ensures Held(b, k) {
        assert Held(st, k);
        ManifestHeld(st, id, false, k);
      }
      StagedStable(st, b, p.head.id, p.at);
    }
  }

  /** A taken id holds the very body that was carried. */
  lemma CompareBodyOk(st: State, p: Task, m: Move)
    requires WorldOk(st) && TaskOk(st, p) && p.Comparing? && m.CompareBody?
    ensures TaskOk(st, CommitStep(st, p, m).1)
  {
    hide Objects, LivePins;
    assert Held(st, MinOf(p.rest));
  }

  lemma CommitStepOk(st: State, p: Task, m: Move)
    requires WorldOk(st) && TaskOk(st, p)
    ensures var (b, q) := CommitStep(st, p, m); WorldOk(b) && OnlyAdds(st, b) && TaskOk(b, q)
  {
    hide WorldOk, OnlyAdds, Objects, Members, LandingOk, BodyOk, Covered, VouchedWhole, Short, BodiesOk;
    hide Known, AtTarget;
    NothingStepOk(st);
    match (p, m)
    case (Landing(_, _, _, _), GetBody(_)) => GetBodyOk(st, p, m);
    case (Carrying(_, _, _, _, _), PutBody(_)) => PutBodyOk(st, p, m);
    case (Comparing(_, _, _, _, _), CompareBody(_)) => CompareBodyOk(st, p, m);
    case (Finished(_, Some(_), _), Unpin(_)) => UnpinOk(st, p, m);
    case _ =>
  }

  lemma ProbeOk(cfg: Settings, st: State, p: Task, m: Move)
    requires WorldOk(st) && TaskOk(st, p) && p.Working? && m.Probe?
    ensures TaskOk(st, CopyStep(cfg, st, p, m).1)
  {
    hide Objects, Members, Covered, VouchedWhole;
  }

  /** An object read at the source is written also if the source has dropped it since. */
  lemma PutObjectOk(cfg: Settings, st: State, p: Task, m: Move)
    requires WorldOk(st) && TaskOk(st, p) && p.Working? && p.pin.Some? && m.PutObject?
    ensures var (b, q) := CopyStep(cfg, st, p, m); WorldOk(b) && OnlyAdds(st, b) && TaskOk(b, q)
  {
    NothingStepOk(st);
    if m.o in p.hand {
      ObjectStepOk(st, m.o);
      TaskLasts(st, WithObject(st, m.o), p);
      hide WorldOk, OnlyAdds, Objects, Members, Covered, VouchedWhole, Known;
    }
  }

  lemma AllCopiedOk(cfg: Settings, st: State, p: Task, m: Move)
    requires WorldOk(st) && TaskOk(st, p) && p.Working? && m.AllCopied?
    ensures TaskOk(st, CopyStep(cfg, st, p, m).1)
  {
    hide Objects, Members, Covered, Vouched;
  }

  lemma CopyStepOk(cfg: Settings, st: State, p: Task, m: Move)
    requires WorldOk(st) && TaskOk(st, p)
    ensures var (b, q) := CopyStep(cfg, st, p, m); WorldOk(b) && OnlyAdds(st, b) && TaskOk(b, q)
  {
    hide WorldOk, OnlyAdds, Objects, Members, Covered, Vouched, VouchedWhole, Short, Known, AtTarget;
    hide LandingOk, BodyOk, BodiesOk;
    NothingStepOk(st);
    match (p, m)
    case (Working(_, _, _, _, _, _), Probe(_, _)) => ProbeOk(cfg, st, p, m);
    case (Working(_, _, Some(_), _, _, _), PutObject(_, _)) => PutObjectOk(cfg, st, p, m);
    case (Working(_, _, _, _, _, _), AllCopied(_)) => AllCopiedOk(cfg, st, p, m);
    case _ =>
  }

  lemma PlanStepOk(cfg: Settings, st: State, w: Worker, m: Move)
    requires WorldOk(st) && WorkerOk(st, w)
    ensures var (b, q) := PlanStep(cfg, st, w, m); WorldOk(b) && OnlyAdds(st, b) && WorkerOk(b, q)
  {
    hide WorldOk, OnlyAdds, WorkerOk, TaskOk, Objects, Members, LivePins, Covered, Vouched, Candidates;
    NothingStepOk(st);
    IdleOk(st, w);
    match (w.task, m)
    case (Idle, ReadWatermark(_)) => ReadWatermarkOk(cfg, st, w, m);
    case (Marked(_), ReadHead(_)) => ReadHeadOk(cfg, st, w, m);
    case (Chosen(_, _, _), StartDiff(_)) => StartDiffOk(cfg, st, w, m);
    case (Diffing(_, _, _, _, _), ReadPin(_, _)) => ReadPinOk(cfg, st, w, m);
    case (Diffing(_, _, _, _, _), PlanIt(_)) => PlanItOk(cfg, st, w, m);
    case (Working(_, _, None, _, _, _), PinSource(_, _)) => PinOk(cfg, st, w, m);
    case (PinHeld(_, _, _), ReadPinned(_)) => ReadPinnedOk(cfg, st, w, m);
    case _ =>
  }

  lemma IdleOk(st: State, w: Worker)
    requires WorkerOk(st, w)
    ensures WorkerOk(st, w.(task := Idle)) && !w.task.Forked?
    ensures w.task.Idle? ==> WorkerOk(st, w.(cache := map[]))
  {
  }

  /** Whatever a task does next, the world stays well formed and only gains, and the
      task can still rely on what it has read. */
  lemma TaskStepOk(cfg: Settings, st: State, w: Worker, m: Move)
    requires WorldOk(st) && WorkerOk(st, w)
    ensures var (b, q) := TaskStep(cfg, st, w, m); WorldOk(b) && OnlyAdds(st, b) && WorkerOk(b, q)
  {
    hide WorldOk, OnlyAdds, TaskOk, BodiesOk, PlanStep, CopyStep, CommitStep;
    NothingStepOk(st);
    IdleOk(st, w);
    if IsCopyMove(m) {
      CopyStepOk(cfg, st, w.task, m);
      CacheLasts(st, CopyStep(cfg, st, w.task, m).0, w.cache);
    } else if IsCommitMove(m) {
      CommitStepOk(st, w.task, m);
      CacheLasts(st, CommitStep(st, w.task, m).0, w.cache);
    } else {
      PlanStepOk(cfg, st, w, m);
    }
  }

  lemma StepOk(cfg: Settings, r: Race, m: Move)
    requires RaceOk(r)
    ensures RaceOk(Step(cfg, r, m)) && OnlyAdds(r.st, Step(cfg, r, m).st)
  {
    hide WorldOk, OnlyAdds, WorkerOk, TaskStep;
    var after := Step(cfg, r, m);
    NothingStepOk(r.st);
    if m.Outside? {
      OutsideOk(cfg, r.st, m.e);
    } else if m.t < |r.workers| {
      TaskStepOk(cfg, r.st, r.workers[m.t], m);
    }
    forall i | 0 <= i < |r.workers| ensures WorkerOk(after.st, after.workers[i]) {
      if m.Outside? || i != m.t {
        WorkerLasts(r.st, after.st, r.workers[i]);
      }
    }
  }

  lemma AddsTrans(a: State, b: State, c: State)
    requires WorldOk(a) && WorldOk(b) && WorldOk(c) && OnlyAdds(a, b) && OnlyAdds(b, c)
    ensures OnlyAdds(a, c)
  {
    LaterTrans(a.src, b.src, c.src);
  }

  lemma {:induction false} RunKeepsOk(cfg: Settings, r: Race, moves: seq<Move>)
    requires RaceOk(r)
    ensures RaceOk(RunRace(cfg, r, moves)) && OnlyAdds(r.st, RunRace(cfg, r, moves).st)
    decreases |moves|
  {
    hide WorldOk, OnlyAdds, WorkerOk, TaskStep;
    if moves == [] {
      NothingStepOk(r.st);
    } else {
      var next := Step(cfg, r, moves[0]);
      StepOk(cfg, r, moves[0]);
      RunKeepsOk(cfg, next, moves[1..]);
      AddsTrans(r.st, next.st, RunRace(cfg, next, moves[1..]).st);
    }
  }

  /** Any number of passes about to begin, on a source and a target in any state that
      is complete. */
  ghost predicate MayStart(r: Race) {
    WorldOk(r.st) && forall i | 0 <= i < |r.workers| :: r.workers[i] == Worker(Idle, map[])
  }

  lemma StartOk(r: Race)
    requires MayStart(r)
    ensures RaceOk(r)
  {
  }

  /** The empty state is one such, and so is any state a mirror task reaches. */
  lemma MayStartAnywhere(st: State, cfg: Settings, n: nat)
    requires Inv(st, cfg)
    ensures MayStart(Race(st, seq(n, i => Worker(Idle, map[]))))
  {
  }

  /** At every point of every race: the latest manifest is complete, every body at the
      target is the source's of that id, no task has met another body, and a task
      that has finished has its whole closure at the target. */
  lemma RaceIsComplete(cfg: Settings, start: Race, moves: seq<Move>)
    requires MayStart(start)
    ensures var r := RunRace(cfg, start, moves);
            && Complete(r.st)
            && (forall i | i in r.st.dst.manifests ::
                  i in r.st.src.hist && r.st.dst.manifests[i].body == r.st.src.hist[i])
            && forall t | 0 <= t < |r.workers| ::
                 && !r.workers[t].task.Forked?
                 && (r.workers[t].task.Finished? ==>
                       forall k | k in Members(r.workers[t].task.head, r.workers[t].task.at) :: PresentWhole(r.st, k))
  {
    hide Step;
    StartOk(start);
    RunKeepsOk(cfg, start, moves);
    var r := RunRace(cfg, start, moves);
    HeldIsComplete(r.st);
    forall i | i in r.st.dst.manifests
      ensures i in r.st.src.hist && r.st.dst.manifests[i].body == r.st.src.hist[i]
    {
      assert Held(r.st, i);
    }
    forall t | 0 <= t < |r.workers|
      ensures !r.workers[t].task.Forked?
      ensures r.workers[t].task.Finished? ==>
                forall k | k in Members(r.workers[t].task.head, r.workers[t].task.at) :: PresentWhole(r.st, k)
    {
      assert WorkerOk(r.st, r.workers[t]);
    }
  }

  /** Nothing a race does changes a manifest already at the target, or takes an
      object away. */
  lemma RaceOnlyAdds(cfg: Settings, start: Race, before: seq<Move>, after: seq<Move>)
    requires MayStart(start)
    ensures var a := RunRace(cfg, start, before).st;
            var b := RunRace(cfg, start, before + after).st;
            && (forall i | i in a.dst.manifests :: i in b.dst.manifests && b.dst.manifests[i] == a.dst.manifests[i])
            && a.dst.objs.Keys <= b.dst.objs.Keys
  {
    hide Step;
    StartOk(start);
    RunKeepsOk(cfg, start, before);
    RunKeepsOk(cfg, RunRace(cfg, start, before), after);
    RunAppends(cfg, start, before, after);
  }

  lemma {:induction false} RunAppends(cfg: Settings, r: Race, a: seq<Move>, b: seq<Move>)
    ensures RunRace(cfg, r, a + b) == RunRace(cfg, RunRace(cfg, r, a), b)
    decreases |a|
  {
    hide Step;
    if a == [] {
      assert a + b == b;
    } else {
      assert (a + b)[0] == a[0] && (a + b)[1..] == a[1..] + b;
      RunAppends(cfg, Step(cfg, r, a[0]), a[1..], b);
    }
  }

  /* A task left alone gets through. */

  /** The moves of task `t` alone. */
  predicate Own(moves: seq<Move>, t: nat) {
    forall m | m in moves :: !m.Outside? && m.t == t
  }

  function RunTask(cfg: Settings, st: State, w: Worker, moves: seq<Move>): (State, Worker)
    decreases |moves|
  {
    if moves == [] then (st, w)
    else
      var (b, q) := TaskStep(cfg, st, w, moves[0]);
      RunTask(cfg, b, q, moves[1..])
  }

  lemma {:induction false} OwnMoves(cfg: Settings, r: Race, t: nat, moves: seq<Move>)
    requires Own(moves, t) && t < |r.workers|
    ensures var (b, q) := RunTask(cfg, r.st, r.workers[t], moves);
            RunRace(cfg, r, moves) == Race(b, r.workers[t := q])
    decreases |moves|
  {
    hide TaskStep;
    if moves != [] {
      assert moves[0] in moves && forall m | m in moves[1..] :: m in moves;
      OwnMoves(cfg, Step(cfg, r, moves[0]), t, moves[1..]);
      var (b, q) := TaskStep(cfg, r.st, r.workers[t], moves[0]);
      assert r.workers[t := q][t := RunTask(cfg, b, q, moves[1..]).1]
             == r.workers[t := RunTask(cfg, b, q, moves[1..]).1];
    }
    assert r.workers[t := r.workers[t]] == r.workers;
  }

  lemma {:induction false} TaskAppends(cfg: Settings, st: State, w: Worker, a: seq<Move>, b: seq<Move>)
    ensures RunTask(cfg, st, w, a + b) == (var (c, q) := RunTask(cfg, st, w, a); RunTask(cfg, c, q, b))
    decreases |a|
  {
    hide TaskStep;
    if a == [] {
      assert a + b == b;
    } else {
      assert (a + b)[0] == a[0] && (a + b)[1..] == a[1..] + b;
      var (c, q) := TaskStep(cfg, st, w, a[0]);
      TaskAppends(cfg, c, q, a[1..], b);
    }
  }

  lemma TaskOne(cfg: Settings, st: State, w: Worker, m: Move)
    ensures RunTask(cfg, st, w, [m]) == TaskStep(cfg, st, w, m)
  {
    hide TaskStep;
    var (b, q) := TaskStep(cfg, st, w, m);
    assert RunTask(cfg, b, q, [m][1..]) == (b, q);
  }

  /** The task comes from `(a, v)` to `(b, w)` by its own moves. */
  ghost predicate Gets(cfg: Settings, t: nat, a: State, v: Worker, b: State, w: Worker) {
    exists moves :: Own(moves, t) && RunTask(cfg, a, v, moves) == (b, w)
  }

  lemma GetsOn(cfg: Settings, t: nat, a: State, v: Worker, b: State, w: Worker, c: State, x: Worker)
    requires Gets(cfg, t, a, v, b, w) && Gets(cfg, t, b, w, c, x)
    ensures Gets(cfg, t, a, v, c, x)
  {
    var p :| Own(p, t) && RunTask(cfg, a, v, p) == (b, w);
    var q :| Own(q, t) && RunTask(cfg, b, w, q) == (c, x);
    TaskAppends(cfg, a, v, p, q);
    assert Own(p + q, t);
  }

  lemma GetsByOne(cfg: Settings, t: nat, a: State, v: Worker, m: Move)
    requires !m.Outside? && m.t == t
    ensures Gets(cfg, t, a, v, TaskStep(cfg, a, v, m).0, TaskStep(cfg, a, v, m).1)
  {
    hide TaskStep;
    TaskOne(cfg, a, v, m);
    assert Own([m], t);
  }

  lemma GetsNowhere(cfg: Settings, t: nat, a: State, v: Worker)
    ensures Gets(cfg, t, a, v, a, v)
  {
    assert Own([], t) && RunTask(cfg, a, v, []) == (a, v);
  }

  /** It reads every pin of its head that the source still has. */
  lemma {:induction false} ReadsPins(cfg: Settings, t: nat, st: State, w: Worker, missing: set<nat>)
    returns (x: Worker)
    requires w.task.Diffing? && w.task.head.id in w.task.bodies
    requires missing == LivePins(w.task.head, w.task.at) - w.task.bodies.Keys
    requires forall p | p in LivePins(w.task.head, w.task.at) :: p in st.src.live && p in st.src.hist
    ensures Gets(cfg, t, st, w, st, x) && x.task.Diffing?
    ensures x.task == Diffing(w.task.watermark, w.task.head, w.task.pin, w.task.at, x.task.bodies)
    ensures Members(x.task.head, x.task.at) <= x.task.bodies.Keys
    decreases |missing|
  {
    hide LivePins;
    GetsNowhere(cfg, t, st, w);
    x := w;
    if missing != {} {
      var p :| p in missing;
      GetsByOne(cfg, t, st, w, ReadPin(t, p));
      var y := TaskStep(cfg, st, w, ReadPin(t, p)).1;
      assert missing - {p} == LivePins(y.task.head, y.task.at) - y.task.bodies.Keys;
      x := ReadsPins(cfg, t, st, y, missing - {p});
      GetsOn(cfg, t, st, w, st, y, st, x);
    }
  }

  lemma {:induction false} TaskRunOk(cfg: Settings, st: State, w: Worker, moves: seq<Move>)
    requires WorldOk(st) && WorkerOk(st, w)
    ensures var (b, q) := RunTask(cfg, st, w, moves); WorldOk(b) && OnlyAdds(st, b) && WorkerOk(b, q)
    decreases |moves|
  {
    hide WorldOk, OnlyAdds, WorkerOk, TaskStep;
    if moves == [] {
      NothingStepOk(st);
    } else {
      var (c, x) := TaskStep(cfg, st, w, moves[0]);
      TaskStepOk(cfg, st, w, moves[0]);
      TaskRunOk(cfg, c, x, moves[1..]);
      AddsTrans(st, c, RunTask(cfg, c, x, moves[1..]).0);
    }
  }

  lemma GetsOk(cfg: Settings, t: nat, a: State, v: Worker, b: State, w: Worker)
    requires WorldOk(a) && WorkerOk(a, v) && Gets(cfg, t, a, v, b, w)
    ensures WorldOk(b) && OnlyAdds(a, b) && WorkerOk(b, w)
  {
    hide WorldOk, OnlyAdds, WorkerOk, TaskStep;
    var moves :| Own(moves, t) && RunTask(cfg, a, v, moves) == (b, w);
    TaskRunOk(cfg, a, v, moves);
  }

  /** Everything on a work list belongs to a manifest of the closure. */
  ghost predicate FromClosure(st: State, head: Manifest, at: nat, need: set<DataObject>) {
    forall o | o in need :: exists k :: k in Members(head, at) && k in st.src.hist && o in Objects(st.src.hist[k])
  }

  lemma NeedIsFromClosure(st: State, w: Worker)
    requires WorldOk(st) && WorkerOk(st, w) && w.task.Diffing?
    ensures FromClosure(st, w.task.head, w.task.at,
                        Candidates(WithMark(w.task.bodies, w.task.watermark), w.task.head, w.task.watermark, w.task.at))
  {
    assert w.task.watermark.Some? ==> AtTarget(st, w.task.watermark.value);
    hide WorldOk, Held, Objects, Vouched, Covered, SourceOk, VouchedWhole, Members;
    var h := WithMark(w.task.bodies, w.task.watermark);
    forall o | o in Candidates(h, w.task.head, w.task.watermark, w.task.at)
      ensures exists k :: k in Members(w.task.head, w.task.at) && k in st.src.hist && o in Objects(st.src.hist[k])
    {
      var k :| k in Members(w.task.head, w.task.at) && k in h && o in Objects(h[k]);
      assert h[k] == st.src.hist[k];
    }
  }

  /** From a head whose pins the source has, it comes to a work list. */
  lemma Plans(cfg: Settings, t: nat, st: State, w: Worker) returns (x: Worker)
    requires WorldOk(st) && WorkerOk(st, w) && w.task.Chosen?
    requires forall p | p in LivePins(w.task.head, st.src.now) :: p in st.src.live && p in st.src.hist
    ensures Gets(cfg, t, st, w, st, x) && x.task.Working? && WorkerOk(st, x)
    ensures x.task.watermark == w.task.watermark && x.task.head == w.task.head && x.task.pin == w.task.pin
    ensures x.task.at == st.src.now && FromClosure(st, x.task.head, x.task.at, x.task.need)
  {
    hide LivePins, Candidates, Gets, FromClosure, WorkerOk, WorldOk;
    GetsByOne(cfg, t, st, w, StartDiff(t));
    var y := TaskStep(cfg, st, w, StartDiff(t)).1;
    var z := ReadsPins(cfg, t, st, y, LivePins(y.task.head, y.task.at) - y.task.bodies.Keys);
    GetsOn(cfg, t, st, w, st, y, st, z);
    GetsOk(cfg, t, st, w, st, z);
    NeedIsFromClosure(st, z);
    GetsByOne(cfg, t, st, z, PlanIt(t));
    x := TaskStep(cfg, st, z, PlanIt(t)).1;
    GetsOn(cfg, t, st, w, st, z, st, x);
    GetsOk(cfg, t, st, w, st, x);
  }

  /** Under its pin it copies its whole work list. */
  lemma {:induction false} Copies(cfg: Settings, t: nat, st: State, w: Worker) returns (b: State, x: Worker)
    requires w.task.Working? && (w.task.need == {} || (w.task.pin.Some? && w.task.need <= st.src.objs))
    ensures Gets(cfg, t, st, w, b, x) && b.src == st.src && b.dst.manifests == st.dst.manifests
    ensures x.task.Working?
    ensures x.task == Working(w.task.watermark, w.task.head, w.task.pin, w.task.at, {}, x.task.hand)
    decreases |if w.task.Working? then w.task.need else {}|
  {
    GetsNowhere(cfg, t, st, w);
    b, x := st, w;
    if w.task.need != {} {
      var o :| o in w.task.need;
      GetsByOne(cfg, t, st, w, GetObject(t, o));
      var y := TaskStep(cfg, st, w, GetObject(t, o)).1;
      GetsByOne(cfg, t, st, y, PutObject(t, o));
      var (c, z) := TaskStep(cfg, st, y, PutObject(t, o));
      GetsOn(cfg, t, st, w, st, y, c, z);
      hide Gets;
      b, x := Copies(cfg, t, c, z);
      GetsOn(cfg, t, st, w, c, z, b, x);
    }
  }

  /** It brings its whole commit list. */
  lemma {:induction false} Lands(cfg: Settings, t: nat, st: State, w: Worker) returns (b: State, x: Worker)
    requires WorldOk(st) && WorkerOk(st, w) && w.task.Landing?
    requires forall k | k in w.task.rest :: k in st.src.live && k in st.src.hist
    ensures Gets(cfg, t, st, w, b, x) && b.src == st.src
    ensures x.task == Finished(w.task.head, w.task.pin, w.task.at)
    decreases |if w.task.Landing? then w.task.rest else {}|
  {
    hide WorldOk, WorkerOk, Gets, OnlyAdds;
    GetsByOne(cfg, t, st, w, GetBody(t));
    b := st;
    x := TaskStep(cfg, st, w, GetBody(t)).1;
    if w.task.rest != {} {
      var id := MinOf(w.task.rest);
      var c, y := Brings(cfg, t, st, w, id);
      b, x := Lands(cfg, t, c, y);
      GetsOn(cfg, t, st, w, c, y, b, x);
    }
  }

  lemma BringingNext(cfg: Settings, t: nat, st: State, w: Worker, id: nat)
    requires w.task.Landing? && w.task.rest != {} && id == MinOf(w.task.rest)
    requires id in st.src.live && id in st.src.hist
    ensures var (a, y) := TaskStep(cfg, st, w, GetBody(t));
            var (b, x) := TaskStep(cfg, st, y, PutBody(t));
            var (c, z) := TaskStep(cfg, b, x, CompareBody(t));
            var after := Landing(w.task.head, w.task.pin, w.task.at, w.task.rest - {id});
            && a == st && b.src == st.src && c == b
            && (x.task == after || (x.task.Comparing? && (z.task == after || z.task.Forked?)))
  {
  }

  /** One manifest of the list: written, or found there with the same body. */
  lemma Brings(cfg: Settings, t: nat, st: State, w: Worker, id: nat) returns (b: State, x: Worker)
    requires WorldOk(st) && WorkerOk(st, w) && w.task.Landing? && w.task.rest != {} && id == MinOf(w.task.rest)
    requires id in st.src.live && id in st.src.hist
    ensures Gets(cfg, t, st, w, b, x) && b.src == st.src && WorldOk(b) && WorkerOk(b, x)
    ensures x.task == Landing(w.task.head, w.task.pin, w.task.at, w.task.rest - {id})
  {
    BringingNext(cfg, t, st, w, id);
    hide WorldOk, WorkerOk, Gets, OnlyAdds, TaskStep;
    GetsByOne(cfg, t, st, w, GetBody(t));
    var y := TaskStep(cfg, st, w, GetBody(t)).1;
    GetsByOne(cfg, t, st, y, PutBody(t));
    b, x := TaskStep(cfg, st, y, PutBody(t)).0, TaskStep(cfg, st, y, PutBody(t)).1;
    GetsOn(cfg, t, st, w, st, y, b, x);
    if x.task.Comparing? {
      var z := TaskStep(cfg, b, x, CompareBody(t)).1;
      GetsByOne(cfg, t, b, x, CompareBody(t));
      GetsOn(cfg, t, st, w, b, x, b, z);
      x := z;
    }
    GetsOk(cfg, t, st, w, b, x);
    NotForked(b, x);
  }

  lemma NotForked(st: State, w: Worker)
    requires WorkerOk(st, w)
    ensures !w.task.Forked?
  {
  }

  /** The source still has the closure of its latest manifest. */
  lemma HeadIsProtected(s: Source)
    requires SourceOk(s) && Born(s)
    ensures s.head in s.hist
    ensures forall k | k in Members(s.hist[s.head], s.now) ::
              k in s.live && k in s.hist && Objects(s.hist[k]) <= s.objs
  {
    assert Sound(s, s.head);
  }

  lemma LandingNext(cfg: Settings, t: nat, st: State, w: Worker)
    requires w.task.Working? && w.task.need == {}
    ensures TaskStep(cfg, st, w, AllCopied(t)) ==
            (st, w.(task := Landing(w.task.head, w.task.pin, w.task.at,
                                    Members(w.task.head, w.task.at)
                                    - Vouched(w.task.head, w.task.watermark, w.task.at))))
  {
  }

  /** From the work list to the end: nothing to copy, or copied under the pin. */
  lemma Finishes(cfg: Settings, t: nat, st: State, w: Worker) returns (b: State, x: Worker)
    requires WorldOk(st) && WorkerOk(st, w) && w.task.Working? && w.task.at == st.src.now
    requires Born(st.src) && st.src.head in st.src.hist && w.task.head == st.src.hist[st.src.head]
    requires w.task.need == {} || (w.task.pin.Some? && FromClosure(st, w.task.head, w.task.at, w.task.need))
    ensures Gets(cfg, t, st, w, b, x) && b.src == st.src
    ensures x.task == Finished(w.task.head, w.task.pin, w.task.at)
  {
    HeadIsProtected(st.src);
    hide WorldOk, WorkerOk, Gets, OnlyAdds, Members, Objects, Vouched, SourceOk, TaskStep;
    var c, y := Copies(cfg, t, st, w);
    GetsOk(cfg, t, st, w, c, y);
    GetsByOne(cfg, t, c, y, AllCopied(t));
    LandingNext(cfg, t, c, y);
    var z := TaskStep(cfg, c, y, AllCopied(t)).1;
    GetsOn(cfg, t, st, w, c, y, c, z);
    GetsOk(cfg, t, st, w, c, z);
    b, x := Lands(cfg, t, c, z);
    GetsOn(cfg, t, st, w, c, z, b, x);
  }

  lemma CacheOk(st: State, w: Worker)
    requires WorkerOk(st, w)
    ensures forall i | i in w.cache :: i in st.src.hist && w.cache[i] == st.src.hist[i]
  {
  }

  lemma PinningNext(cfg: Settings, t: nat, st: State, w: Worker)
    requires w.task.Working? && w.task.pin.None? && w.task.need != {} && st.src.head in st.src.hist
    ensures var (b, x) := TaskStep(cfg, st, w, PinSource(t, false));
            && x.task.PinHeld? && x.task.manifestId == st.src.head + 1 && b.src.head == st.src.head + 1
            && b.src.head in b.src.hist && b.src.head in b.src.live
  {
  }

  lemma PinnedNext(cfg: Settings, t: nat, st: State, w: Worker)
    requires w.task.PinHeld? && w.task.manifestId in st.src.hist && w.task.manifestId in st.src.live
    requires forall i | i in w.cache :: i in st.src.hist && w.cache[i] == st.src.hist[i]
    ensures var (b, x) := TaskStep(cfg, st, w, ReadPinned(t));
            b == st && x.task.Chosen? && x.task.pin.Some? && x.task.head == st.src.hist[w.task.manifestId]
  {
  }

  /** It pins the source, and takes up the manifest its pin protects. */
  lemma Pins(cfg: Settings, t: nat, st: State, w: Worker) returns (b: State, x: Worker)
    requires WorldOk(st) && WorkerOk(st, w) && w.task.Working? && w.task.pin.None? && w.task.need != {}
    requires Born(st.src) && st.src.head in st.src.hist
    ensures Gets(cfg, t, st, w, b, x) && WorldOk(b) && WorkerOk(b, x)
    ensures Born(b.src) && b.src.head == st.src.head + 1 && b.src.head in b.src.hist
    ensures x.task.Chosen? && x.task.pin.Some? && x.task.head == b.src.hist[b.src.head]
  {
    PinningNext(cfg, t, st, w);
    CacheOk(st, w);
    hide WorldOk, WorkerOk, Gets, OnlyAdds, Objects, TaskStep;
    GetsByOne(cfg, t, st, w, PinSource(t, false));
    var (c, y) := TaskStep(cfg, st, w, PinSource(t, false));
    GetsOk(cfg, t, st, w, c, y);
    CacheOk(c, y);
    PinnedNext(cfg, t, c, y);
    GetsByOne(cfg, t, c, y, ReadPinned(t));
    b, x := c, TaskStep(cfg, c, y, ReadPinned(t)).1;
    GetsOn(cfg, t, st, w, c, y, b, x);
    GetsOk(cfg, t, st, w, b, x);
  }

  /** It reads both heads and finds something to do. */
  lemma Chooses(cfg: Settings, t: nat, st: State, w: Worker) returns (x: Worker)
    requires WorldOk(st) && WorkerOk(st, w) && Born(st.src) && st.src.head in st.src.hist
    requires Accepted(st.src.hist[st.src.head]) && forall i | i in st.dst.manifests :: i < st.src.head
    ensures Gets(cfg, t, st, w, st, x) && WorkerOk(st, x)
    ensures x.task.Chosen? && x.task.head == st.src.hist[st.src.head] && x.task.pin.None?
  {
    NotForked(st, w);
    WatermarkBelow(st);
    Choosing(cfg, t, st, w);
    hide WorldOk, WorkerOk, Gets, OnlyAdds, Objects, TaskStep, Accepted;
    GetsByOne(cfg, t, st, w, Restart(t));
    var y := TaskStep(cfg, st, w, Restart(t)).1;
    GetsByOne(cfg, t, st, y, ReadWatermark(t));
    var z := TaskStep(cfg, st, y, ReadWatermark(t)).1;
    GetsOn(cfg, t, st, w, st, y, st, z);
    GetsByOne(cfg, t, st, z, ReadHead(t));
    x := TaskStep(cfg, st, z, ReadHead(t)).1;
    GetsOn(cfg, t, st, w, st, z, st, x);
    GetsOk(cfg, t, st, w, st, x);
  }

  lemma Choosing(cfg: Settings, t: nat, st: State, w: Worker)
    requires !w.task.Forked? && st.src.head in st.src.hist && Accepted(st.src.hist[st.src.head])
    requires st.src.hist[st.src.head].id == st.src.head
    requires st.dst.manifests != map[] ==> st.dst.manifests[MaxOf(st.dst.manifests.Keys)].body.id < st.src.head
    ensures var (a, y) := TaskStep(cfg, st, w, Restart(t));
            var (b, z) := TaskStep(cfg, st, y, ReadWatermark(t));
            var (c, x) := TaskStep(cfg, st, z, ReadHead(t));
            && a == st && b == st && c == st
            && x.task.Chosen? && x.task.head == st.src.hist[st.src.head] && x.task.pin.None?
  {
  }

  lemma WatermarkBelow(st: State)
    requires WorldOk(st) && Born(st.src) && st.src.head in st.src.hist
    requires forall i | i in st.dst.manifests :: i < st.src.head
    ensures st.src.hist[st.src.head].id == st.src.head
    ensures st.dst.manifests != map[] ==> st.dst.manifests[MaxOf(st.dst.manifests.Keys)].body.id < st.src.head
  {
    assert Sound(st.src, st.src.head);
    if st.dst.manifests != map[] {
      var h := MaxOf(st.dst.manifests.Keys);
      assert Held(st, h) && Sound(st.src, h);
    }
  }

  lemma FinishedIsThere(st: State, w: Worker, n: nat)
    requires WorldOk(st) && WorkerOk(st, w) && w.task.Finished? && n <= w.task.head.id
    ensures exists h :: IsLatest(st.dst, h) && n <= h
  {
    assert w.task.head.id in Members(w.task.head, w.task.at) && PresentWhole(st, w.task.head.id);
    assert IsLatest(st.dst, MaxOf(st.dst.manifests.Keys));
  }

  lemma HeadId(s: Source)
    requires SourceOk(s) && s.head in s.hist
    ensures s.hist[s.head].id == s.head
  {
    assert Sound(s, s.head);
  }

  lemma WorldSource(st: State)
    requires WorldOk(st)
    ensures SourceOk(st.src)
  {
  }

  /** From a head it has chosen to the end. */
  lemma FromChosen(cfg: Settings, t: nat, st: State, w: Worker) returns (b: State, x: Worker)
    requires WorldOk(st) && WorkerOk(st, w) && w.task.Chosen? && Born(st.src) && st.src.head in st.src.hist
    requires w.task.head == st.src.hist[st.src.head]
    ensures Gets(cfg, t, st, w, b, x)
    ensures exists h :: IsLatest(b.dst, h) && st.src.head <= h
    decreases if w.task.Chosen? && w.task.pin.None? then 1 else 0
  {
    hide *;
    WorldSource(st);
    HeadIsProtected(st.src);
    HeadId(st.src);
    LiveMembers(st.src);
    var y := Plans(cfg, t, st, w);
    if y.task.need == {} || y.task.pin.Some? {
      b, x := Finishes(cfg, t, st, y);
      GetsOn(cfg, t, st, w, st, y, b, x);
      GetsOk(cfg, t, st, w, b, x);
      FinishedIsThere(b, x, st.src.head);
    } else {
      var c, z := Pins(cfg, t, st, y);
      b, x := FromChosen(cfg, t, c, z);
      GetsOn(cfg, t, st, y, c, z, b, x);
      GetsOn(cfg, t, st, w, st, y, b, x);
    }
  }

  lemma LiveMembers(s: Source)
    requires s.head in s.hist
    requires forall k | k in Members(s.hist[s.head], s.now) ::
               k in s.live && k in s.hist && Objects(s.hist[k]) <= s.objs
    ensures forall p | p in LivePins(s.hist[s.head], s.now) :: p in s.live && p in s.hist
  {
    hide LivePins, Objects;
  }

  /** A task left alone finishes: whatever it and the others were at, it brings the source's
      head to the target, or a newer one. */
  lemma AloneItFinishes(cfg: Settings, start: Race, before: seq<Move>, t: nat) returns (after: seq<Move>)
    requires MayStart(start) && t < |RunRace(cfg, start, before).workers|
    requires Born(RunRace(cfg, start, before).st.src) && !Excluded(RunRace(cfg, start, before).st.src)
    ensures Own(after, t)
    ensures var r, d := RunRace(cfg, start, before), RunRace(cfg, start, before + after);
            && (exists h :: IsLatest(d.st.dst, h) && r.st.src.head <= h)
            && |d.workers| == |r.workers| && forall i | 0 <= i < |r.workers| && i != t :: d.workers[i] == r.workers[i]
  {
    hide Step, TaskStep, WorldOk, WorkerOk, OnlyAdds, Excluded;
    StartOk(start);
    RunKeepsOk(cfg, start, before);
    var r := RunRace(cfg, start, before);
    var b, x := FromHere(cfg, t, r.st, r.workers[t]);
    after :| Own(after, t) && RunTask(cfg, r.st, r.workers[t], after) == (b, x);
    OwnMoves(cfg, r, t, after);
    RunAppends(cfg, start, before, after);
  }

  lemma FromHere(cfg: Settings, t: nat, st: State, w: Worker) returns (b: State, x: Worker)
    requires WorldOk(st) && WorkerOk(st, w) && Born(st.src) && !Excluded(st.src)
    ensures Gets(cfg, t, st, w, b, x)
    ensures exists h :: IsLatest(b.dst, h) && st.src.head <= h
  {
    hide WorkerOk, Gets, OnlyAdds, Held, Protected, NewPinsAreNew, NoRevival, Objects;
    ExcludedIs(st.src);
    if i :| i in st.dst.manifests && i >= st.src.head {
      b, x := st, w;
      GetsNowhere(cfg, t, st, w);
      assert IsLatest(st.dst, MaxOf(st.dst.manifests.Keys));
    } else {
      var y := Chooses(cfg, t, st, w);
      b, x := FromChosen(cfg, t, st, y);
      GetsOn(cfg, t, st, w, st, y, b, x);
    }
  }
}
