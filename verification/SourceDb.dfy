/** The source database as the mirror finds it. Everything else that happens to a
    source (its writer, its compactor, operators, expiry, its garbage collector)
    is an `Action`, and `Enabled` states what the mirror may assume of it. */
module SourceDb {
  import opened Wrappers
  import opened Layout

  /** `hist` is every manifest body ever committed, `head` the latest id; `live`
      and `objs` are what the object store holds right now. */
  datatype Source = Source(
    hist: map<nat, Manifest>,
    head: nat,
    live: set<nat>,
    objs: set<DataObject>,
    now: nat,
    nextUuid: nat)

  datatype Action =
    | Tick(d: nat)
    | Upload(o: DataObject)
    | Commit(m: Manifest)
    | CollectManifest(id: nat)
    | CollectObject(o: DataObject)

  const EmptySource := Source(map[], 0, {}, {}, 0, 0)

  predicate Born(s: Source) { s.hist != map[] }

  predicate Referenced(s: Source, o: DataObject) {
    exists i | i in s.hist :: o in Objects(s.hist[i])
  }

  /** What a checkpoint refresh may change: the expiry alone, to a later time, and
      only while the entry still lives. */
  predicate Carries(d: Checkpoint, c: Checkpoint, now: nat) {
    && c.id == d.id && c.manifestId == d.manifestId && c.created == d.created && c.name == d.name
    && (c.expire == d.expire || (Live(d, now) && NoSooner(d.expire, c.expire)))
  }

  /** A new checkpoint has an id never used before and pins the manifest its own
      creation commits, or the one just before it. */
  predicate Creates(s: Source, c: Checkpoint, id: nat) {
    && c.id == s.nextUuid && c.created == s.now
    && (c.manifestId == id || (Born(s) && c.manifestId == s.head))
  }

  predicate EntryFollows(s: Source, c: Checkpoint, id: nat) {
    || Creates(s, c, id)
    || (Born(s) && s.head in s.hist
        && exists d | d in s.hist[s.head].checkpoints :: Carries(d, c, s.now))
  }

  predicate ListsOnce(m: Manifest) {
    forall i, j | 0 <= i < j < |m.checkpoints| :: m.checkpoints[i].id != m.checkpoints[j].id
  }

  /** The manifests the source may commit next. Ids only grow; the objects are
      those of the latest manifest and ones no manifest ever referenced (of the WAL
      files, ones past the recorded bound), so a dropped object never returns; WAL
      bounds never decrease; an entry is carried, refreshed or new, so a checkpoint
      appears in one contiguous run. */
  predicate Successor(s: Source, m: Manifest) {
    && ListsOnce(m)
    && (forall c | c in m.checkpoints :: EntryFollows(s, c, m.id))
    && Objects(m) <= s.objs
    && (forall o | o in Objects(m) :: o.Wal? ==> o.id < m.nextWal)
    && (Born(s) ==>
          && s.head in s.hist && m.id > s.head
          && s.hist[s.head].replayAfter <= m.replayAfter
          && s.hist[s.head].nextWal <= m.nextWal
          && (forall o | o in Objects(m) && o !in Objects(s.hist[s.head]) ::
                !Referenced(s, o) && (o.Wal? ==> o.id >= s.hist[s.head].nextWal)))
  }

  /** Whether garbage collection must keep manifest `i`. */
  predicate KeepsManifest(s: Source, i: nat) {
    Born(s) && s.head in s.hist && (i == s.head || i in LivePins(s.hist[s.head], s.now))
  }

  /** Whether garbage collection must keep object `o`: the latest manifest's live
      closure, and WAL files no manifest covers yet. */
  predicate KeepsObject(s: Source, o: DataObject) {
    || (o.Wal? && (Born(s) && s.head in s.hist ==> o.id >= s.hist[s.head].nextWal))
    || exists i | i in s.hist :: KeepsManifest(s, i) && o in Objects(s.hist[i])
  }

  predicate Enabled(s: Source, a: Action) {
    match a
    case Tick(_) => true
    case Upload(o) => !Referenced(s, o)
    case Commit(m) => Successor(s, m)
    case CollectManifest(i) => !KeepsManifest(s, i)
    case CollectObject(o) => !KeepsObject(s, o)
  }

  function Committed(s: Source, m: Manifest): Source {
    s.(hist := s.hist[m.id := m], head := m.id, live := s.live + {m.id}, nextUuid := s.nextUuid + 1)
  }

  /** One action; an action the source would not take leaves it alone. */
  function Apply(s: Source, a: Action): Source {
    if !Enabled(s, a) then s
    else match a
      case Tick(d) => s.(now := s.now + d)
      case Upload(o) => s.(objs := s.objs + {o})
      case Commit(m) => Committed(s, m)
      case CollectManifest(i) => s.(live := s.live - {i})
      case CollectObject(o) => s.(objs := s.objs - {o})
  }

  /* What every reachable source satisfies. */

  ghost predicate Sound(s: Source, i: nat) {
    i in s.hist ==>
      && i <= s.head && s.hist[i].id == i && ListsOnce(s.hist[i])
      && (forall c | c in s.hist[i].checkpoints ::
            c.id < s.nextUuid && c.manifestId <= i && c.manifestId in s.hist)
      && (forall w: nat | Wal(w) in Objects(s.hist[i]) :: w < s.hist[i].nextWal)
  }

  /** An entry carried from one manifest to a later one. */
  predicate SameCheckpoint(c: Checkpoint, d: Checkpoint) {
    && c.manifestId == d.manifestId && c.created == d.created && c.name == d.name
    && NoSooner(c.expire, d.expire)
  }

  ghost predicate Ordered(h: map<nat, Manifest>, i: nat, j: nat) {
    i in h && j in h && i <= j ==>
      && h[i].replayAfter <= h[j].replayAfter && h[i].nextWal <= h[j].nextWal
      && (forall w: nat | Wal(w) in Objects(h[j]) && w < h[i].nextWal :: Wal(w) in Objects(h[i]))
      && forall c, d | c in h[i].checkpoints && d in h[j].checkpoints && c.id == d.id ::
           SameCheckpoint(c, d)
  }

  ghost predicate Convex(h: map<nat, Manifest>, i: nat, j: nat, k: nat) {
    i in h && j in h && k in h && i <= j <= k ==>
      && Objects(h[i]) * Objects(h[k]) <= Objects(h[j])
      && Ids(h[i]) * Ids(h[k]) <= Ids(h[j])
  }

  /** The latest manifest's live closure is at the source. */
  ghost predicate Protected(s: Source)
    requires s.head in s.hist
  {
    && s.head in s.live
    && Objects(s.hist[s.head]) <= s.objs
    && forall c | c in s.hist[s.head].checkpoints && Live(c, s.now) ::
         c.manifestId in s.live && c.manifestId in s.hist
         && Objects(s.hist[c.manifestId]) <= s.objs
  }

  ghost predicate SourceOk(s: Source) {
    && s.live <= s.hist.Keys
    && (forall i :: Sound(s, i))
    && (forall i, j :: Ordered(s.hist, i, j))
    && (forall i, j, k :: Convex(s.hist, i, j, k))
    && (Born(s) ==> s.head in s.hist && Protected(s))
  }

  /** `b` is a state the source that was `a` can be in later. */
  ghost predicate Later(a: Source, b: Source) {
    && a.now <= b.now && a.nextUuid <= b.nextUuid
    && (forall i | i in a.hist :: i in b.hist && b.hist[i] == a.hist[i])
    && (forall i | i in b.hist :: i in a.hist || (Born(a) ==> i > a.head))
    && (Born(a) ==>
          && a.head in a.hist && Born(b) && a.head <= b.head
          && (forall i :: NewPinsAreNew(a, b, i))
          && NoRevival(a, b))
  }

  /** A checkpoint created after `a` pins `a`'s latest manifest or a newer one. */
  ghost predicate NewPinsAreNew(a: Source, b: Source, i: nat) {
    i in b.hist && i > a.head && a.head in a.hist ==>
      forall d | d in b.hist[i].checkpoints ::
        d.id in Ids(a.hist[a.head]) || (d.id >= a.nextUuid && d.manifestId >= a.head)
  }

  /** An entry that had expired in `a` does not live in `b`. */
  ghost predicate NoRevival(a: Source, b: Source)
  {
    a.head in a.hist && b.head in b.hist ==>
      forall c, d | c in a.hist[a.head].checkpoints && d in b.hist[b.head].checkpoints
                    && c.id == d.id && Live(d, b.now) :: Live(c, a.now)
  }

  /* The proofs, one clause of the invariant at a time. */

  lemma EmptyIsOk()
    ensures SourceOk(EmptySource)
  {
    assert forall i, j :: Ordered(EmptySource.hist, i, j);
    assert forall i, j, k :: Convex(EmptySource.hist, i, j, k);
  }

  lemma IdsMember(m: Manifest, c: Checkpoint)
    requires c in m.checkpoints
    ensures c.id in Ids(m)
  {
  }

  /** A manifest lists a checkpoint once. */
  lemma EntriesDistinct(s: Source, i: nat, c: Checkpoint, d: Checkpoint)
    requires SourceOk(s) && i in s.hist
    requires c in s.hist[i].checkpoints && d in s.hist[i].checkpoints && c.id == d.id
    ensures c == d
  {
    assert Sound(s, i);
  }

  /** A committed entry is new or continues an entry of the previous head. */
  lemma EntryOrigin(s: Source, m: Manifest, d: Checkpoint) returns (p: Option<Checkpoint>)
    requires Successor(s, m) && d in m.checkpoints
    ensures p.None? ==> Creates(s, d, m.id)
    ensures p.Some? ==> Born(s) && s.head in s.hist && p.value in s.hist[s.head].checkpoints
                        && Carries(p.value, d, s.now)
  {
    assert EntryFollows(s, d, m.id);
    if Creates(s, d, m.id) {
      p := None;
    } else {
      var q :| q in s.hist[s.head].checkpoints && Carries(q, d, s.now);
      p := Some(q);
    }
  }

  lemma CommitSound(s: Source, m: Manifest, i: nat)
    requires SourceOk(s) && Successor(s, m)
    ensures Sound(Committed(s, m), i)
  {
    var t := Committed(s, m);
    if i == m.id {
      forall c | c in m.checkpoints
        ensures c.id < t.nextUuid && c.manifestId <= i && c.manifestId in t.hist
      {
        var p := EntryOrigin(s, m, c);
        if p.Some? {
          assert Sound(s, s.head);
        }
      }
    } else if i in s.hist {
      assert Sound(s, i);
    }
  }

  lemma CommitOrdered(s: Source, m: Manifest, i: nat, j: nat)
    requires SourceOk(s) && Successor(s, m)
    ensures Ordered(Committed(s, m).hist, i, j)
  {
    var h := Committed(s, m).hist;
    if i in h && j in h && i <= j {
      assert Sound(s, i) && Sound(s, j);
      if j == m.id && i != m.id {
        CommitFollows(s, m, i);
      } else if j != m.id {
        assert Ordered(s.hist, i, j);
      } else {
        forall c, d | c in m.checkpoints && d in m.checkpoints && c.id == d.id
          ensures SameCheckpoint(c, d)
        {
          assert c == d;
        }
      }
    }
  }

  /** The new manifest continues every older one. */
  lemma CommitFollows(s: Source, m: Manifest, i: nat)
    requires SourceOk(s) && Successor(s, m) && i in s.hist && i != m.id
    ensures Ordered(Committed(s, m).hist, i, m.id)
  {
    hide Objects, Protected;
    assert Sound(s, i) && Ordered(s.hist, i, s.head);
    forall c, d | c in s.hist[i].checkpoints && d in m.checkpoints && c.id == d.id
      ensures SameCheckpoint(c, d)
    {
      var p := EntryOrigin(s, m, d);
    }
    forall w: nat | Wal(w) in Objects(m) && w < s.hist[i].nextWal
      ensures Wal(w) in Objects(s.hist[i])
    {
      assert Wal(w) in Objects(s.hist[s.head]);
    }
  }

  lemma CommitConvex(s: Source, m: Manifest, i: nat, j: nat, k: nat)
    requires SourceOk(s) && Successor(s, m)
    ensures Convex(Committed(s, m).hist, i, j, k)
  {
    var h := Committed(s, m).hist;
    if i in h && j in h && k in h && i < j < k {
      assert Sound(s, i) && Sound(s, j) && Sound(s, k);
      assert Convex(s.hist, i, j, k);
      if k == m.id {
        assert Convex(s.hist, i, j, s.head);
        forall o | o in Objects(h[i]) && o in Objects(m)
          ensures o in Objects(h[j])
        {
          assert Referenced(s, o);
        }
        forall id | id in Ids(h[i]) && id in Ids(m)
          ensures id in Ids(h[j])
        {
          var d :| d in m.checkpoints && d.id == id;
          var p := EntryOrigin(s, m, d);
          if p.Some? {
            IdsMember(s.hist[s.head], p.value);
          }
        }
      }
    }
  }

  lemma CommitProtected(s: Source, m: Manifest)
    requires SourceOk(s) && Successor(s, m)
    ensures Protected(Committed(s, m))
  {
    var t := Committed(s, m);
    forall c | c in m.checkpoints && Live(c, t.now)
      ensures c.manifestId in t.live && c.manifestId in t.hist
              && Objects(t.hist[c.manifestId]) <= t.objs
    {
      var p := EntryOrigin(s, m, c);
    }
  }

  lemma CommitKeepsOk(s: Source, m: Manifest)
    requires SourceOk(s) && Successor(s, m)
    ensures SourceOk(Committed(s, m)) && Later(s, Committed(s, m))
  {
    var t := Committed(s, m);
    forall i ensures Sound(t, i) { CommitSound(s, m, i); }
    forall i, j ensures Ordered(t.hist, i, j) { CommitOrdered(s, m, i, j); }
    forall i, j, k ensures Convex(t.hist, i, j, k) { CommitConvex(s, m, i, j, k); }
    CommitProtected(s, m);
    CommitIsLater(s, m);
  }

  lemma CommitIsLater(s: Source, m: Manifest)
    requires SourceOk(s) && Successor(s, m)
    ensures Later(s, Committed(s, m))
  {
    var t := Committed(s, m);
    forall i | i in s.hist
      ensures i in t.hist && t.hist[i] == s.hist[i]
    {
      assert Sound(s, i);
    }
    if Born(s) {
      forall i: nat ensures NewPinsAreNew(s, t, i) { CommitPinsAreNew(s, m, i); }
      CommitRevivesNothing(s, m);
    }
  }

  lemma CommitPinsAreNew(s: Source, m: Manifest, i: nat)
    requires SourceOk(s) && Successor(s, m) && Born(s)
    ensures NewPinsAreNew(s, Committed(s, m), i)
  {
    assert Sound(s, i) && Sound(s, s.head);
    if i == m.id {
      forall d | d in m.checkpoints
        ensures d.id in Ids(s.hist[s.head]) || (d.id >= s.nextUuid && d.manifestId >= s.head)
      {
        var p := EntryOrigin(s, m, d);
        if p.Some? {
          IdsMember(s.hist[s.head], p.value);
        }
      }
    }
  }

  lemma CommitRevivesNothing(s: Source, m: Manifest)
    requires SourceOk(s) && Successor(s, m) && Born(s)
    ensures NoRevival(s, Committed(s, m))
  {
    var prev := s.hist[s.head];
    assert Sound(s, s.head);
    forall c, d | c in prev.checkpoints && d in m.checkpoints && c.id == d.id && Live(d, s.now)
      ensures Live(c, s.now)
    {
      var p := EntryOrigin(s, m, d);
      assert c.id < s.nextUuid;
      EntriesDistinct(s, s.head, c, p.value);
    }
    assert Committed(s, m).hist[s.head] == prev;
  }

  /** Everything but a commit leaves the history alone. */
  lemma SameHistoryIsLater(s: Source, t: Source)
    requires SourceOk(s)
    requires t.hist == s.hist && t.head == s.head && t.nextUuid == s.nextUuid && s.now <= t.now
    ensures Later(s, t)
    ensures forall i :: Sound(t, i)
  {
    if Born(s) {
      forall i ensures NewPinsAreNew(s, t, i) { assert Sound(s, i); }
      forall c, d | c in s.hist[s.head].checkpoints && d in s.hist[s.head].checkpoints
                    && c.id == d.id && Live(d, t.now)
        ensures Live(c, s.now)
      {
        assert Ordered(s.hist, s.head, s.head);
      }
    }
    forall i ensures Sound(t, i) { assert Sound(s, i); }
  }

  lemma CollectObjectKeepsProtected(s: Source, o: DataObject)
    requires SourceOk(s) && Born(s) && !KeepsObject(s, o)
    ensures Protected(s.(objs := s.objs - {o}))
  {
    var t := s.(objs := s.objs - {o});
    assert KeepsManifest(s, s.head);
    forall c | c in s.hist[s.head].checkpoints && Live(c, s.now)
      ensures c.manifestId in t.live && c.manifestId in t.hist
              && Objects(t.hist[c.manifestId]) <= t.objs
    {
      assert KeepsManifest(s, c.manifestId);
    }
  }

  /** Whatever the source does, it stays well formed and only moves on. */
  lemma ActionKeepsOk(s: Source, a: Action)
    requires SourceOk(s)
    ensures SourceOk(Apply(s, a)) && Later(s, Apply(s, a))
  {
    var t := Apply(s, a);
    if a.Commit? && Enabled(s, a) {
      CommitKeepsOk(s, a.m);
    } else {
      SameHistoryIsLater(s, t);
      if Born(s) {
        if a.CollectObject? && Enabled(s, a) {
          CollectObjectKeepsProtected(s, a.o);
        } else if a.Tick? {
          forall c | c in s.hist[s.head].checkpoints && Live(c, t.now)
            ensures c.manifestId in t.live && Objects(t.hist[c.manifestId]) <= t.objs
          {
            assert Live(c, s.now);
          }
        } else if a.CollectManifest? && Enabled(s, a) {
          forall c | c in s.hist[s.head].checkpoints && Live(c, t.now)
            ensures c.manifestId in t.live
          {
            assert c.manifestId in LivePins(s.hist[s.head], s.now);
          }
        }
      }
    }
  }

  lemma LaterRefl(s: Source)
    requires SourceOk(s)
    ensures Later(s, s)
  {
    SameHistoryIsLater(s, s);
  }

  /** A checkpoint listed by both ends of a stretch of history is listed between. */
  lemma ListedBetween(s: Source, i: nat, j: nat, k: nat, id: nat)
    requires SourceOk(s) && i in s.hist && j in s.hist && k in s.hist && i <= j <= k
    requires id in Ids(s.hist[i]) && id in Ids(s.hist[k])
    ensures id in Ids(s.hist[j])
  {
    assert Convex(s.hist, i, j, k);
  }

  lemma LaterTrans(a: Source, b: Source, c: Source)
    requires SourceOk(a) && SourceOk(b) && SourceOk(c) && Later(a, b) && Later(b, c)
    ensures Later(a, c)
  {
    if Born(a) {
      forall i: nat ensures NewPinsAreNew(a, c, i) {
        if i in c.hist && i > a.head {
          NewPinsCompose(a, b, c, i);
        }
      }
      forall x, z | x in a.hist[a.head].checkpoints && z in c.hist[c.head].checkpoints
                    && x.id == z.id && Live(z, c.now)
        ensures Live(x, a.now)
      {
        IdsMember(a.hist[a.head], x);
        IdsMember(c.hist[c.head], z);
        ListedBetween(c, a.head, b.head, c.head, x.id);
        var y :| y in b.hist[b.head].checkpoints && y.id == x.id;
        assert Live(y, b.now);
      }
    }
  }

  lemma NewPinsCompose(a: Source, b: Source, c: Source, i: nat)
    requires SourceOk(a) && SourceOk(b) && SourceOk(c) && Later(a, b) && Later(b, c)
    requires Born(a) && i in c.hist && i > a.head
    ensures NewPinsAreNew(a, c, i)
  {
    assert NewPinsAreNew(a, b, i) && NewPinsAreNew(b, c, i) && NewPinsAreNew(a, b, b.head);
    if i !in b.hist {
      forall d | d in c.hist[i].checkpoints
        ensures d.id in Ids(a.hist[a.head]) || (d.id >= a.nextUuid && d.manifestId >= a.head)
      {
        if d.id in Ids(b.hist[b.head]) {
          var e :| e in b.hist[b.head].checkpoints && e.id == d.id;
          assert Ordered(c.hist, b.head, i);
        }
      }
    }
  }
}
