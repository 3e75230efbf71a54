/** With a quiet source and no failures the mirror catches up and then rests. */
module Convergence {
  import opened Wrappers
  import opened Layout
  import opened SourceDb
  import opened MirrorState
  import opened World
  import opened Pass

  /** The target's latest manifest is the source's. */
  ghost predicate InSync(st: State) {
    Born(st.src) && IsLatest(st.dst, st.src.head)
  }

  lemma WithoutLast(cs: seq<Checkpoint>, c: Checkpoint)
    requires forall d | d in cs :: d.id != c.id
    ensures Without(cs + [c], c.id) == cs
  {
    var all := cs + [c];
    var k := Find(all, c.id);
    assert all[|cs|] == c && c in all;
    assert forall i | 0 <= i < |cs| :: all[i] == cs[i] && all[i].id != c.id;
    assert all[..|cs|] + all[|cs| + 1..] == cs;
  }

  /** A pinned pass leaves only checkpoint-level differences behind: the pin's entry
      came and went. */
  lemma {:induction false} PinnedPassSettles(a: State, b: State, cfg: Settings, previous: bool, o: PassOutcome)
    requires Inv(a, cfg) && Inv(b, cfg) && CanPass(a, cfg)
    requires b.src == PinnedPass(a.src, cfg, previous) && IsLatest(b.dst, PinnedHead(a.src, previous))
    ensures CanPass(b, cfg) && Settled(b)
  {
    var s := a.src;
    var prev := s.hist[s.head];
    var pin := PinnedHead(s, previous);
    var m := PinManifest(s, cfg, pin);
    var entry := PinEntry(s, cfg, pin);
    assert Sound(s, s.head);
    WithoutLast(prev.checkpoints, entry);
    var t := Committed(s, m);
    assert t.hist[t.head] == m && m.checkpoints == prev.checkpoints + [entry];
    var u := UnpinManifest(t, s.nextUuid);
    assert u.checkpoints == prev.checkpoints;
    assert b.src == Committed(t, u) && b.src.hist[b.src.head] == u;
    assert b.src.hist[pin] == (if previous then prev else m);
    assert Objects(u) == Objects(prev) == Objects(m);
    assert forall c | c in prev.checkpoints :: c in m.checkpoints;
  }

  lemma {:induction false} StepSettles(a: State, b: State, cfg: Settings, previous: bool, o: PassOutcome)
    requires Inv(a, cfg) && Inv(b, cfg) && CanPass(a, cfg) && StepsForward(a, b, cfg, previous, o)
    ensures CanPass(b, cfg) && Settled(b)
    ensures b.writes == a.writes ==> InSync(b)
    ensures InSync(b) || b.writes == a.writes + 2
    ensures b.writes <= a.writes + 2
  {
    if !(b.src == a.src && IsLatest(b.dst, a.src.head)) {
      PinnedPassSettles(a, b, cfg, previous, o);
    } else {
      assert IsLatest(b.dst, b.src.head) && b.src.head in b.src.hist;
    }
  }

  /** Passing time settles nothing and unsettles nothing: entries can only expire. */
  lemma WaitingKeeps(st: State, cfg: Settings, d: nat)
    ensures CanPass(st, cfg) ==> CanPass(Waited(st, d), cfg)
    ensures Settled(st) ==> Settled(Waited(st, d))
    ensures InSync(st) <==> InSync(Waited(st, d))
  {
    hide Objects;
    if Settled(st) {
      var h :| IsLatest(st.dst, h) && h in st.src.hist
               && Objects(st.src.hist[st.src.head]) <= Objects(st.src.hist[h])
               && forall c | c in st.src.hist[st.src.head].checkpoints && Live(c, st.src.now) ::
                    c in st.src.hist[h].checkpoints;
      var t := Waited(st, d);
      assert IsLatest(t.dst, h) && t.src.hist == st.src.hist && t.src.head == st.src.head;
      assert forall c | Live(c, t.src.now) :: Live(c, st.src.now);
    }
  }

  /** Two passes bring the target to the source's head, the second of them without
      writing at the source; a third finds nothing to do and changes nothing. Any time
      may pass before each. */
  method CatchUp(w: Stores, wait1: nat, wait2: nat, wait3: nat)
    returns (first: PassResult<PassOutcome>, second: PassResult<PassOutcome>,
             third: PassResult<PassOutcome>, ghost between: State, ghost synced: State)
    requires w.Valid() && w.Quiet() && CanPass(w.st, w.cfg)
    modifies w
    ensures w.Valid() && first.Done? && second.Done? && third.Done?
    ensures between.writes <= old(w.st.writes) + 2 && synced.writes == between.writes
    ensures InSync(synced) && InSync(w.st)
    ensures !third.value.committed && w.st == Waited(synced, wait3)
  {
    hide *;
    ghost var start, attempts := w.st, 0;
    WaitingKeeps(start, w.cfg, wait1);
    w.Wait(wait1);
    WaitedWrites(start, wait1);
    ghost var early := w.st;
    first, attempts := SyncPass(w);
    between := w.st;
    StepSettles(early, between, w.cfg, w.pinsPrevious, first.value);
    WaitingKeeps(between, w.cfg, wait2);
    w.Wait(wait2);
    WaitedWrites(between, wait2);
    ghost var later := w.st;
    second, attempts := SyncPass(w);
    synced := w.st;
    StepSettles(later, synced, w.cfg, w.pinsPrevious, second.value);
    WaitingKeeps(synced, w.cfg, wait3);
    w.Wait(wait3);
    WaitedWrites(synced, wait3);
    ghost var late := w.st;
    third, attempts := SyncPass(w);
    StepSettles(late, w.st, w.cfg, w.pinsPrevious, third.value);
    Rests(late, w.st, w.cfg, w.pinsPrevious, third.value);
  }

  lemma WaitedWrites(st: State, d: nat)
    ensures Waited(st, d).writes == st.writes
  {
  }

  lemma Rests(a: State, b: State, cfg: Settings, previous: bool, o: PassOutcome)
    requires StepsForward(a, b, cfg, previous, o) && InSync(a) && b.writes == a.writes
    ensures !o.committed && b == a
  {
  }
}
