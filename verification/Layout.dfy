/** What a manifest is, which data objects it references, and when one of its
    checkpoint entries is live (src/mirror/layout.rs). A data object is known by
    its name alone: objects are immutable and their names are unique. */
module Layout {
  import opened Wrappers

  type Ulid = string

  /** The name of an object under `compacted/` or `wal/`. */
  datatype DataObject = Compacted(ulid: Ulid) | Wal(id: nat)

  /** One LSM tree: its level-0 tables and its sorted runs. */
  datatype Tree = Tree(l0: seq<DataObject>, runs: seq<seq<DataObject>>)

  /** A checkpoint entry: manifest metadata that pins a manifest. */
  datatype Checkpoint = Checkpoint(
    id: nat, manifestId: nat, expire: Option<nat>, created: int, name: string)

  datatype Manifest = Manifest(
    id: nat,
    root: Tree,
    segments: seq<Tree>,
    replayAfter: nat,
    nextWal: nat,
    checkpoints: seq<Checkpoint>,
    isClone: bool,
    separateWal: bool,
    lastSeq: nat)

  function TreeObjects(t: Tree): set<DataObject> {
    (set o | o in t.l0) + (set r, o | r in t.runs && o in r :: o)
  }

  function WalWindow(after: nat, next: nat): set<DataObject> {
    set w | after < w < next :: Wal(w)
  }

  lemma EmptyWindow(after: nat, next: nat)
    requires next <= after + 1
    ensures WalWindow(after, next) == {}
  {
    assert forall o :: o !in WalWindow(after, next);
  }

  /** Every data object a manifest references: the tables of every tree, and the
      WAL files its recorded state replays. */
  function Objects(m: Manifest): set<DataObject> {
    TreeObjects(m.root)
    + (set t, o | t in m.segments && o in TreeObjects(t) :: o)
    + WalWindow(m.replayAfter, m.nextWal)
  }

  /** A level-0 table of the tree, or a table of any of its sorted runs. */
  predicate InTree(t: Tree, o: DataObject) {
    || (exists i :: 0 <= i < |t.l0| && t.l0[i] == o)
    || exists i, j :: 0 <= i < |t.runs| && 0 <= j < |t.runs[i]| && t.runs[i][j] == o
  }

  lemma TreeObjectsAre(t: Tree, o: DataObject)
    ensures o in TreeObjects(t) <==> InTree(t, o)
  {
    if o in TreeObjects(t) && o !in t.l0 {
      var r :| r in t.runs && o in r;
      var i :| 0 <= i < |t.runs| && t.runs[i] == r;
      var j :| 0 <= j < |r| && r[j] == o;
      assert t.runs[i][j] == o;
    }
    if i, j :| 0 <= i < |t.runs| && 0 <= j < |t.runs[i]| && t.runs[i][j] == o {
      assert t.runs[i] in t.runs && o in t.runs[i];
    }
  }

  /** What a manifest references, place by place. */
  lemma ObjectsAre(m: Manifest)
    ensures forall o :: o in Objects(m) <==>
              || InTree(m.root, o)
              || (exists k :: 0 <= k < |m.segments| && InTree(m.segments[k], o))
              || (o.Wal? && m.replayAfter < o.id < m.nextWal)
  {
    forall o
      ensures o in Objects(m) <==>
                || InTree(m.root, o)
                || (exists k :: 0 <= k < |m.segments| && InTree(m.segments[k], o))
                || (o.Wal? && m.replayAfter < o.id < m.nextWal)
    {
      TreeObjectsAre(m.root, o);
      forall k | 0 <= k < |m.segments| ensures o in TreeObjects(m.segments[k]) <==> InTree(m.segments[k], o) {
        TreeObjectsAre(m.segments[k], o);
      }
      if exists t :: t in m.segments && o in TreeObjects(t) {
        var t :| t in m.segments && o in TreeObjects(t);
        var k :| 0 <= k < |m.segments| && m.segments[k] == t;
      }
    }
  }

  /** `manifest_objects`: the set is filled tree by tree, run by run, and then
      one WAL id at a time. */
  method ManifestObjects(m: Manifest) returns (objects: set<DataObject>)
    ensures objects == Objects(m)
    ensures forall o :: o in objects <==>
              || InTree(m.root, o)
              || (exists k :: 0 <= k < |m.segments| && InTree(m.segments[k], o))
              || (o.Wal? && m.replayAfter < o.id < m.nextWal)
  {
    var trees := [m.root] + m.segments;
    objects := {};
    for i := 0 to |trees|
      invariant objects == set t, o | t in trees[..i] && o in TreeObjects(t) :: o
    {
      objects := AddTree(objects, trees[i]);
      assert trees[..i + 1] == trees[..i] + [trees[i]];
    }
    assert trees[..|trees|] == trees;
    ghost var referenced := objects;
    var wal := m.replayAfter + 1;
    EmptyWindow(m.replayAfter, wal);
    while wal < m.nextWal
      invariant m.replayAfter < wal <= Max(m.replayAfter + 1, m.nextWal)
      invariant objects == referenced + WalWindow(m.replayAfter, wal)
    {
      objects := objects + {Wal(wal)};
      wal := wal + 1;
    }
    if m.nextWal <= m.replayAfter + 1 {
      EmptyWindow(m.replayAfter, wal);
      EmptyWindow(m.replayAfter, m.nextWal);
    }
    ObjectsAre(m);
  }

  method AddTree(objects: set<DataObject>, t: Tree) returns (more: set<DataObject>)
    ensures more == objects + TreeObjects(t)
  {
    more := objects;
    for i := 0 to |t.l0|
      invariant more == objects + set o | o in t.l0[..i]
    {
      more := more + {t.l0[i]};
    }
    assert t.l0[..|t.l0|] == t.l0;
    ghost var level0 := more;
    for i := 0 to |t.runs|
      invariant more == level0 + set r, o | r in t.runs[..i] && o in r :: o
    {
      ghost var before := more;
      var run := t.runs[i];
      for j := 0 to |run|
        invariant more == before + set o | o in run[..j]
      {
        more := more + {run[j]};
      }
      assert run[..|run|] == run;
      assert t.runs[..i + 1] == t.runs[..i] + [run];
    }
    assert t.runs[..|t.runs|] == t.runs;
  }

  /** The checkpoint ids a manifest lists. */
  function Ids(m: Manifest): set<nat> {
    set c | c in m.checkpoints :: c.id
  }

  /** `checkpoint_live`: unexpired at `now`. */
  predicate Live(c: Checkpoint, now: nat) {
    c.expire.None? || c.expire.value > now
  }

  /** `b` runs out no sooner than `a`. */
  predicate NoSooner(a: Option<nat>, b: Option<nat>) {
    b.None? || (a.Some? && a.value <= b.value)
  }

  /** The manifests the live entries of `m` pin. */
  function LivePins(m: Manifest, now: nat): set<nat> {
    set c | c in m.checkpoints && Live(c, now) :: c.manifestId
  }
}
