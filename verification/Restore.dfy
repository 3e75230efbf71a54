/** Restoring one point of a backup into an empty root (src/mirror/restore.rs). */
module Restore {
  import opened Wrappers
  import opened Layout
  import opened MirrorState
  import opened World

  /** One entry of a sequence tracker: sequence number `at` was reached at time `ts`. */
  datatype Sample = Sample(at: nat, ts: int)

  datatype Snapshot = Snapshot(manifest: Manifest, samples: seq<Sample>)

  datatype Point = Latest | ById(id: nat) | ByTime(ts: int)

  datatype RestoreError =
    | StoreFailed
    | NotADatabase
    | DestinationNotEmpty
    | NoRestorePoint

  datatype Outcome<+T> = Ok(value: T) | Err(error: RestoreError)

  /** The root restored into. `strays` counts objects of no kind known here. */
  datatype Root = Root(manifests: map<nat, Manifest>, objs: set<DataObject>, strays: nat)

  const EMPTY_ROOT := Root(map[], {}, 0)

  /** The newest tracked time at or below a sequence number. */
  function FindTs(samples: seq<Sample>, at: nat): (r: Option<int>)
    ensures r.None? <==> forall s | s in samples :: s.at > at
    ensures r.Some? ==> exists k :: NewestBelow(samples, at, k) && samples[k].ts == r.value
  {
    if samples == [] then None
    else
      var rest := samples[..|samples| - 1];
      var last := samples[|samples| - 1];
      var before := FindTs(rest, at);
      assert forall s | s in samples :: s == last || s in rest;
      if last.at <= at && forall s | s in rest && s.at <= at :: s.at <= last.at then
        assert NewestBelow(samples, at, |samples| - 1);
        Some(last.ts)
      else
        assert forall k | NewestBelow(rest, at, k) && last.at <= at :: last.at <= rest[k].at;
        assert forall k | NewestBelow(rest, at, k) :: NewestBelow(samples, at, k) && rest[k] == samples[k];
        before
  }

  /** Entry `k` has the largest sequence number not above `at`. */
  predicate NewestBelow(samples: seq<Sample>, at: nat, k: int) {
    0 <= k < |samples| && samples[k].at <= at && forall s | s in samples && s.at <= at :: s.at <= samples[k].at
  }

  predicate Advancing(samples: seq<Sample>) {
    forall i, j | 0 <= i < j < |samples| :: samples[i].at < samples[j].at && samples[i].ts <= samples[j].ts
  }

  /** Where a tracker advances, a newer state never maps to an older time. */
  lemma TrackedTimesAdvance(samples: seq<Sample>, a: nat, b: nat)
    requires Advancing(samples) && a <= b && FindTs(samples, a).Some?
    ensures FindTs(samples, b).Some? && FindTs(samples, a).value <= FindTs(samples, b).value
  {
    var i :| NewestBelow(samples, a, i) && samples[i].ts == FindTs(samples, a).value;
    assert samples[i] in samples;
    var j :| NewestBelow(samples, b, j) && samples[j].ts == FindTs(samples, b).value;
    assert samples[i].at <= samples[j].at;
  }

  /** Manifest `id`'s recorded state is tracked, by the tracker of `head`, at or
      before `ts`. */
  predicate Within(hist: map<nat, Snapshot>, head: nat, id: nat, ts: int)
    requires head in hist && id in hist
  {
    var t := FindTs(hist[head].samples, hist[id].manifest.lastSeq);
    t.Some? && t.value <= ts
  }

  /** What the rest of the world makes of the backup before a call, and whether the
      call fails. */
  datatype Weather = Weather(live: set<nat>, objs: set<DataObject>, later: nat, fails: bool)

  /** A backup and the root being restored into. Manifests and objects come and go at
      the backup at any time; a manifest's body never changes. */
  class Site {
    const hist: map<nat, Snapshot>
    var live: set<nat>
    var objs: set<DataObject>
    var now: nat
    var weather: seq<Weather>
    var dest: Root

    constructor (hist: map<nat, Snapshot>, live: set<nat>, objs: set<DataObject>, now: nat,
                 weather: seq<Weather>, dest: Root)
      requires WellFormed(hist) && live <= hist.Keys && forall w | w in weather :: w.live <= hist.Keys
      ensures Valid() && this.dest == dest && this.hist == hist && this.live == live && this.weather == weather
    {
      this.hist, this.live, this.objs, this.now, this.weather, this.dest := hist, live, objs, now, weather, dest;
    }

    ghost predicate Valid()
      reads this
    {
      WellFormed(hist) && live <= hist.Keys && forall w | w in weather :: w.live <= hist.Keys
    }

    predicate Quiet()
      reads this
    {
      weather == []
    }

    /** Whether a moment of the run ahead, or this one, has the manifests `ids`. */
    predicate Seen(ids: set<nat>)
      reads this
    {
      ids == live || exists w :: w in weather && w.live == ids
    }

    method Call() returns (ok: bool)
      requires Valid()
      modifies this`live, this`objs, this`now, this`weather
      ensures Valid() && old(now) <= now
      ensures forall ids | Seen(ids) :: old(Seen(ids))
      ensures old(Quiet()) ==> ok && Quiet() && live == old(live) && objs == old(objs) && now == old(now)
    {
      if weather == [] { return true; }
      var w := weather[0];
      live, objs, now, weather := w.live, w.objs, now + w.later, weather[1..];
      return !w.fails;
    }

    method ReadManifest(id: nat) returns (r: Fetch<Snapshot>)
      requires Valid()
      modifies this`live, this`objs, this`now, this`weather
      ensures Valid() && old(now) <= now
      ensures forall ids | Seen(ids) :: old(Seen(ids))
      ensures old(Quiet()) ==> Quiet() && live == old(live) && objs == old(objs) && now == old(now) && !r.Failed?
      ensures r.Found? ==> id in live && r.value == hist[id]
      ensures r.Missing? ==> id !in live
    {
      var ok := Call();
      return if !ok then Failed else if id in live then Found(hist[id]) else Missing;
    }
  }

  /** Ids name bodies, and no manifest pins a newer one. */
  predicate WellFormed(hist: map<nat, Snapshot>) {
    forall i | i in hist :: hist[i].manifest.id == i
      && forall c | c in hist[i].manifest.checkpoints :: c.manifestId <= i
  }

  /** How `point` selects `id` among the manifests `listed`, of which `gone` could not
      be read any more. */
  predicate Selects(hist: map<nat, Snapshot>, listed: set<nat>, gone: set<nat>, point: Point, id: nat)
    requires listed != {} && listed <= hist.Keys
  {
    id in listed && match point
    case Latest => id == MaxOf(listed)
    case ById(want) => id == want
    case ByTime(ts) =>
      id !in gone && Within(hist, MaxOf(listed), id, ts)
      && forall j | j in listed && j > id && j !in gone :: !Within(hist, MaxOf(listed), j, ts)
  }

  /** `resolve_point`. A search from the newest manifest back. */
  method ResolvePoint(s: Site, listed: set<nat>, point: Point) returns (r: Outcome<nat>, ghost gone: set<nat>)
    requires s.Valid() && listed != {} && listed <= s.hist.Keys
    modifies s`live, s`objs, s`now, s`weather
    ensures s.Valid() && old(s.now) <= s.now
    ensures old(s.Quiet()) ==> s.Quiet() && s.live == old(s.live) && s.objs == old(s.objs) && s.now == old(s.now)
    ensures old(s.Quiet()) && listed <= old(s.live) ==> gone == {} && (r.Err? ==> r.error.NoRestorePoint?)
    ensures r.Ok? ==> Selects(s.hist, listed, gone, point, r.value)
    ensures gone <= listed && forall id | id in gone :: exists ids :: old(s.Seen(ids)) && id !in ids
    ensures forall ids | s.Seen(ids) :: old(s.Seen(ids))
    ensures r.Err? && r.error.NoRestorePoint? ==>
              forall id | id in listed - gone :: !Selects(s.hist, listed, gone, point, id)
    ensures r.Err? ==> !r.error.DestinationNotEmpty?
  {
    gone := {};
    var latest := MaxOf(listed);
    match point {
      case Latest => return Ok(latest), gone;
      case ById(id) => return if id in listed then Ok(id) else Err(NoRestorePoint), gone;
      case ByTime(ts) =>
        var head := s.ReadManifest(latest);
        if head.Failed? { return Err(StoreFailed), gone; }
        if head.Missing? { return Err(NotADatabase), gone; }
        var rest := listed;
        while rest != {}
          invariant s.Valid() && old(s.now) <= s.now && rest <= listed
          invariant old(s.Quiet()) ==>
                    s.Quiet() && s.live == old(s.live) && s.objs == old(s.objs) && s.now == old(s.now)
          invariant old(s.Quiet()) && listed <= old(s.live) ==> gone == {}
          invariant forall i, j | i in rest && j in listed && j !in rest :: i < j
          invariant gone !! rest && gone <= listed
          invariant forall ids | s.Seen(ids) :: old(s.Seen(ids))
          invariant forall i | i in gone :: exists ids :: old(s.Seen(ids)) && i !in ids
          invariant forall j | j in listed - rest - gone :: !Within(s.hist, latest, j, ts)
        {
          var id := MaxOf(rest);
          forall i, j | i in rest - {id} && j in listed && j !in rest - {id} ensures i < j {
            assert i != id && i <= id;
          }
          assert id !in gone && forall j | j in listed && j > id :: j !in rest;
          var m := s.ReadManifest(id);
          if m.Failed? { return Err(StoreFailed), gone; }
          rest := rest - {id};
          if m.Missing? {
            assert s.Seen(s.live);
            gone := gone + {id};
            continue;
          }
          var t := FindTs(head.value.samples, m.value.manifest.lastSeq);
          if t.Some? && t.value <= ts { return Ok(id), gone; }
        }
        return Err(NoRestorePoint), gone;
    }
  }

  /** The root holds whole manifests only: every manifest body is the backup's and has
      all its objects. */
  ghost predicate NeverAhead(hist: map<nat, Snapshot>, root: Root) {
    forall i | i in root.manifests ::
      i in hist && root.manifests[i] == hist[i].manifest && Objects(hist[i].manifest) <= root.objs
  }

  function AllObjects(hist: map<nat, Snapshot>, ids: set<nat>): set<DataObject> {
    set i, o | i in ids && i in hist && o in Objects(hist[i].manifest) :: o
  }

  /** The chosen point restored: its one-level live closure as judged at `at`, no more
      and no less. */
  ghost predicate Restored(hist: map<nat, Snapshot>, id: nat, at: nat, root: Root) {
    && id in hist
    && root.manifests.Keys == Members(hist[id].manifest, at)
    && root.objs == AllObjects(hist, root.manifests.Keys)
    && NeverAhead(hist, root)
  }

  lemma {:induction false} RestoredIsLatest(hist: map<nat, Snapshot>, id: nat, at: nat, root: Root)
    requires WellFormed(hist) && Restored(hist, id, at, root)
    ensures id in root.manifests && forall i | i in root.manifests :: i <= id
  {
  }

  /** The manifests a point needs, and whether its live entries all resolve. */
  method Closure(s: Site, chosen: nat, m: Manifest) returns (r: Outcome<set<nat>>, at: nat)
    requires s.Valid() && chosen in s.hist && m == s.hist[chosen].manifest
    modifies s`live, s`objs, s`now, s`weather
    ensures s.Valid() && old(s.now) == at && at <= s.now
    ensures old(s.Quiet()) ==> s.Quiet() && s.live == old(s.live) && s.objs == old(s.objs) && s.now == old(s.now)
    ensures r.Ok? ==> r.value == Members(m, at) && r.value <= s.hist.Keys
    ensures r.Err? ==> r.error.NoRestorePoint? || r.error.StoreFailed?
    ensures old(s.Quiet()) && r.Ok? ==> LivePins(m, at) <= s.live + {chosen}
    ensures old(s.Quiet()) && r.Err? ==> r.error.NoRestorePoint? && exists p | p in LivePins(m, at) :: p !in s.live
  {
    at := s.now;
    var members: set<nat> := {chosen};
    var cps := m.checkpoints;
    for k := 0 to |cps|
      invariant s.Valid() && at <= s.now
      invariant old(s.Quiet()) ==> s.Quiet() && s.live == old(s.live) && s.objs == old(s.objs) && s.now == old(s.now)
      invariant members == {chosen} + set c | c in cps[..k] && Live(c, at) :: c.manifestId
      invariant members <= s.hist.Keys
      invariant old(s.Quiet()) ==> members <= s.live + {chosen}
    {
      var cp := cps[k];
      assert cps[..k + 1] == cps[..k] + [cp];
      if !Live(cp, at) || cp.manifestId == chosen { continue; }
      var pinned := s.ReadManifest(cp.manifestId);
      if pinned.Failed? { return Err(StoreFailed), at; }
      if pinned.Missing? {
        assert cp.manifestId in LivePins(m, at);
        return Err(NoRestorePoint), at;
      }
      members := members + {cp.manifestId};
    }
    assert cps[..|cps|] == cps;
    assert LivePins(m, at) <= members;
    return Ok(members), at;
  }

  method CopyAll(s: Site, objects: set<DataObject>) returns (ok: bool)
    requires s.Valid()
    modifies s
    ensures s.Valid()
    ensures s.dest.manifests == old(s.dest.manifests) && s.dest.strays == old(s.dest.strays)
    ensures old(s.dest.objs) <= s.dest.objs
    ensures ok ==> s.dest.objs == old(s.dest.objs) + objects
    ensures old(s.Quiet()) ==> s.Quiet() && s.live == old(s.live) && s.objs == old(s.objs)
    ensures old(s.Quiet()) ==> (ok <==> objects <= s.objs)
  {
    var rest := objects;
    while rest != {}
      invariant s.Valid() && rest <= objects
      invariant s.dest == old(s.dest).(objs := old(s.dest.objs) + (objects - rest))
      invariant old(s.Quiet()) ==>
                s.Quiet() && s.live == old(s.live) && s.objs == old(s.objs) && objects - rest <= s.objs
    {
      var o :| o in rest;
      var got := s.Call();
      if !got || o !in s.objs { return false; }
      var put := s.Call();
      if !put { return false; }
      s.dest := s.dest.(objs := s.dest.objs + {o});
      rest := rest - {o};
    }
    return true;
  }

  /** The manifests in ascending id order, the restore point last. */
  method CommitAll(s: Site, members: set<nat>, chosen: nat) returns (ok: bool)
    requires s.Valid() && members <= s.hist.Keys && chosen in members && s.dest.manifests == map[]
    requires forall i | i in members :: i <= chosen
    requires AllObjects(s.hist, members) <= s.dest.objs
    modifies s
    ensures s.Valid() && NeverAhead(s.hist, s.dest)
    ensures s.dest.objs == old(s.dest.objs) && s.dest.strays == old(s.dest.strays)
    ensures s.dest.manifests.Keys <= members
    ensures chosen in s.dest.manifests ==> s.dest.manifests.Keys == members
    ensures ok ==> s.dest.manifests.Keys == members
    ensures old(s.Quiet()) ==> s.Quiet() && s.live == old(s.live) && (members <= s.live ==> ok)
  {
    var rest := members;
    forall i | i in members ensures Objects(s.hist[i].manifest) <= s.dest.objs {
      assert Objects(s.hist[i].manifest) <= AllObjects(s.hist, members);
    }
    while rest != {}
      invariant s.Valid() && rest <= members && NeverAhead(s.hist, s.dest)
      invariant s.dest.objs == old(s.dest.objs) && s.dest.strays == old(s.dest.strays)
      invariant s.dest.manifests.Keys == members - rest
      invariant rest == {} || chosen in rest
      invariant old(s.Quiet()) ==> s.Quiet() && s.live == old(s.live)
    {
      var id := MinOf(rest);
      var bytes := s.ReadManifest(id);
      if !bytes.Found? { return false; }
      var put := s.Call();
      if !put { return false; }
      s.dest := s.dest.(manifests := s.dest.manifests[id := bytes.value.manifest]);
      if id == chosen {
        assert forall i | i in rest :: i == chosen;
      }
      rest := rest - {id};
    }
    return true;
  }

  /** When an undisturbed restore of `id` succeeds: nothing it needs is missing. */
  predicate Restorable(hist: map<nat, Snapshot>, live: set<nat>, objs: set<DataObject>, now: nat, id: nat) {
    id in hist && LivePins(hist[id].manifest, now) <= live
    && AllObjects(hist, Members(hist[id].manifest, now)) <= objs
  }

  /** The point selects nothing, or a manifest with a live entry that no longer resolves. */
  ghost predicate NoPoint(hist: map<nat, Snapshot>, live: set<nat>, point: Point, now: nat)
    requires live != {} && live <= hist.Keys
  {
    forall id | Selects(hist, live, {}, point, id) :: !(LivePins(hist[id].manifest, now) <= live)
  }

  /** `restore`. */
  method RestorePoint(s: Site, point: Point)
    returns (r: Outcome<nat>, ghost listed: set<nat>, ghost gone: set<nat>, ghost at: nat)
    requires s.Valid()
    modifies s
    ensures s.Valid()
    ensures old(s.dest) != EMPTY_ROOT ==> r.Err? && s.dest == old(s.dest)
    ensures r.Err? && !r.error.StoreFailed? ==> s.dest == old(s.dest)
    ensures old(s.dest) == EMPTY_ROOT ==> NeverAhead(s.hist, s.dest)
    ensures r.Ok? ==> old(s.dest) == EMPTY_ROOT && Restored(s.hist, r.value, at, s.dest)
    ensures r.Ok? ==> listed != {} && listed <= s.hist.Keys && Selects(s.hist, listed, gone, point, r.value)
    ensures r.Ok? ==> old(s.Seen(listed)) && forall i | i in gone :: exists ids :: old(s.Seen(ids)) && i !in ids
    ensures old(s.Quiet()) && r.Ok? ==> listed == s.live == old(s.live) && gone == {}
    ensures old(s.Quiet()) && old(s.dest) != EMPTY_ROOT ==> r == Err(DestinationNotEmpty)
    ensures old(s.Quiet()) && old(s.dest) == EMPTY_ROOT && old(s.live) == {} ==> r == Err(NotADatabase)
    ensures (old(s.Quiet()) && old(s.dest) == EMPTY_ROOT && old(s.live) != {}
             && NoPoint(s.hist, old(s.live), point, old(s.now))) ==> r == Err(NoRestorePoint)
    ensures old(s.Quiet()) && old(s.dest) == EMPTY_ROOT && old(s.live) != {} ==>
              (r.Ok? <==> exists id :: Selects(s.hist, old(s.live), {}, point, id)
                                       && Restorable(s.hist, old(s.live), old(s.objs), old(s.now), id))
  {
    hide Objects, LivePins;
    listed, gone, at := {}, {}, s.now;
    var looked := s.Call();
    if !looked { return Err(StoreFailed), listed, gone, at; }
    if s.dest != EMPTY_ROOT { return Err(DestinationNotEmpty), listed, gone, at; }
    var lists := s.Call();
    if !lists { return Err(StoreFailed), listed, gone, at; }
    var manifests := s.live;
    assert s.Seen(s.live);
    listed := manifests;
    if manifests == {} { return Err(NotADatabase), listed, gone, at; }
    var chosen;
    chosen, gone := ResolvePoint(s, manifests, point);
    if chosen.Err? { return Err(chosen.error), listed, gone, at; }
    var id := chosen.value;
    SelectsOne(s.hist, manifests, point);
    var manifest := s.ReadManifest(id);
    if manifest.Failed? { return Err(StoreFailed), listed, gone, at; }
    if manifest.Missing? { return Err(NoRestorePoint), listed, gone, at; }
    var members;
    members, at := Closure(s, id, manifest.value.manifest);
    if members.Err? { return Err(members.error), listed, gone, at; }
    MembersBelow(s.hist, id, at);
    assert s.dest == EMPTY_ROOT && {} + AllObjects(s.hist, members.value) == AllObjects(s.hist, members.value);
    var copied := CopyAll(s, AllObjects(s.hist, members.value));
    if !copied { return Err(StoreFailed), listed, gone, at; }
    var committed := CommitAll(s, members.value, id);
    if !committed { return Err(StoreFailed), listed, gone, at; }
    return Ok(id), listed, gone, at;
  }

  lemma MembersBelow(hist: map<nat, Snapshot>, id: nat, at: nat)
    requires WellFormed(hist) && id in hist
    ensures id in Members(hist[id].manifest, at)
    ensures forall i | i in Members(hist[id].manifest, at) :: i <= id
  {
  }

  /** With everything readable a point selects at most one manifest. */
  lemma SelectsOne(hist: map<nat, Snapshot>, listed: set<nat>, point: Point)
    requires listed != {} && listed <= hist.Keys
    ensures forall a, b | Selects(hist, listed, {}, point, a) && Selects(hist, listed, {}, point, b) :: a == b
  {
  }
}
