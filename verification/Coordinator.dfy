/** Compaction coordinators across the fleet: epoch fencing and the fence retry of
    src/daemon.rs, for one database. Acquiring the epoch fences every other runner;
    a fenced one waits and tries again, unless its assignment has moved. */
module Coordinator {
  import opened Wrappers
  import opened Services
  import opened Sorting
  import opened Placement
  import opened Fleet

  /** `Starting` is about to acquire; `Holding(e)` acquired epoch `e` and runs;
      `Pausing` waits to try again; `Gone` has exited. */
  datatype Stage = Starting | Holding(epoch: nat) | Pausing | Gone

  /** One supervised coordinator task, on some node. A cancelled one stops, but may
      get one more acquisition in first. */
  datatype Runner = Runner(node: Bytes, cancelled: bool, stage: Stage)

  /** `newest` is the runner that acquired last; `fences` counts the fences noticed,
      `retries` those of them that were followed by another try. */
  datatype Arena = Arena(epoch: nat, runners: seq<Runner>, newest: Option<nat>, fences: nat, retries: nat)

  datatype Move =
    | Acquire(i: nat)
    | NoticeFence(i: nat)
    | Fail(i: nat)
    | Resume(i: nat)
    | Leave(i: nat)
    | Reconcile(node: Bytes, services: seq<Service>, view: seq<NodeView>, changed: bool)

  /** `changed` reconciles with another configuration: the node's runner is cancelled and
      replaced. */
  predicate Replaces(m: Move) {
    m.Reconcile? && m.changed
  }

  /** The database whose coordinator this is. */
  datatype Context = Context(url: Bytes, dbs: map<Bytes, Resolved>)

  function Key(c: Context): Assignment {
    Assignment(c.url, CompactorCoordinator, None)
  }

  predicate Unfenced(a: Arena, i: nat) {
    i < |a.runners| && a.runners[i].stage == Holding(a.epoch)
  }

  predicate Stands(r: Runner) {
    !r.cancelled && !r.stage.Gone?
  }

  function Cancelled(rs: seq<Runner>, node: Bytes): (out: seq<Runner>)
    ensures |out| == |rs|
    ensures forall i | 0 <= i < |rs| :: out[i] == if rs[i].node == node then rs[i].(cancelled := true) else rs[i]
  {
    seq(|rs|, i requires 0 <= i < |rs| => if rs[i].node == node then rs[i].(cancelled := true) else rs[i])
  }

  function Step(c: Context, a: Arena, m: Move): Arena {
    match m
    case Acquire(i) =>
      if i < |a.runners| && a.runners[i].stage.Starting?
      then a.(epoch := a.epoch + 1, runners := a.runners[i := a.runners[i].(stage := Holding(a.epoch + 1))],
          newest := Some(i))
      else a
    case NoticeFence(i) =>
      if i < |a.runners| && a.runners[i].stage.Holding? && a.runners[i].stage.epoch < a.epoch
      then a.(runners := a.runners[i := a.runners[i].(stage := if a.runners[i].cancelled then Gone else Pausing)],
              fences := a.fences + 1, retries := if a.runners[i].cancelled then a.retries else a.retries + 1)
      else a
    case Fail(i) =>
      if i < |a.runners| && a.runners[i].stage.Holding?
      then a.(runners := a.runners[i := a.runners[i].(stage := if a.runners[i].cancelled then Gone else Pausing)])
      else a
    case Resume(i) =>
      if i < |a.runners| && a.runners[i].stage.Pausing?
      then a.(runners := a.runners[i := a.runners[i].(stage := Starting)])
      else a
    case Leave(i) =>
      if i < |a.runners| then a.(runners := a.runners[i := a.runners[i].(stage := Gone)]) else a
    case Reconcile(node, services, view, changed) =>
      if !Owns(node, WithSelf(node, services, view), c.dbs, Key(c)) then a.(runners := Cancelled(a.runners, node))
      else if changed then a.(runners := Cancelled(a.runners, node) + [Runner(node, false, Starting)])
      else if exists r | r in a.runners :: r.node == node && Stands(r) then a
      else a.(runners := a.runners + [Runner(node, false, Starting)])
  }

  function RunAll(c: Context, a: Arena, moves: seq<Move>): Arena
    decreases |moves|
  {
    if moves == [] then a else RunAll(c, Step(c, a, moves[0]), moves[1..])
  }

  const START := Arena(0, [], None, 0, 0)

  /* Safety, in every run. */

  ghost predicate Ok(a: Arena) {
    && (forall i | 0 <= i < |a.runners| && a.runners[i].stage.Holding? :: 0 < a.runners[i].stage.epoch <= a.epoch)
    && (forall i, j | 0 <= i < j < |a.runners| && a.runners[i].stage.Holding? ::
        a.runners[i].stage != a.runners[j].stage)
    && (forall i | 0 <= i < |a.runners| && Unfenced(a, i) :: a.newest == Some(i))
    && forall i, j | 0 <= i < j < |a.runners| && a.runners[i].node == a.runners[j].node ::
         !(Stands(a.runners[i]) && Stands(a.runners[j]))
  }

  /** A step of one runner: it keeps its node and does not come back. */
  lemma RunnerStepOk(a: Arena, i: nat, stage: Stage, epoch: nat, newest: Option<nat>, fences: nat, retries: nat)
    requires Ok(a) && i < |a.runners| && (a.runners[i].stage.Gone? ==> stage.Gone?)
    requires (epoch == a.epoch && newest == a.newest && !stage.Holding?)
             || (epoch == a.epoch + 1 && newest == Some(i) && stage == Holding(epoch))
    ensures Ok(Arena(epoch, a.runners[i := a.runners[i].(stage := stage)], newest, fences, retries))
  {
    var b := Arena(epoch, a.runners[i := a.runners[i].(stage := stage)], newest, fences, retries);
    forall k | 0 <= k < |b.runners| && Unfenced(b, k) ensures b.newest == Some(k) {
      assert k != i ==> b.runners[k] == a.runners[k];
      assert k != i && epoch == a.epoch ==> Unfenced(a, k);
    }
  }

  lemma ReconcileOk(c: Context, a: Arena, m: Move)
    requires Ok(a) && m.Reconcile?
    ensures Ok(Step(c, a, m))
  {
    hide Owns;
    var b := Step(c, a, m);
    forall i | 0 <= i < |b.runners| && Unfenced(b, i) ensures b.newest == Some(i) {
      assert i < |a.runners| && Unfenced(a, i);
    }
  }

  lemma {:induction false} StepOk(c: Context, a: Arena, m: Move)
    requires Ok(a)
    ensures Ok(Step(c, a, m))
  {
    hide Owns, Ok;
    if m.Reconcile? {
      ReconcileOk(c, a, m);
    } else if m.i < |a.runners| && Step(c, a, m) != a {
      var b := Step(c, a, m);
      RunnerStepOk(a, m.i, b.runners[m.i].stage, b.epoch, b.newest, b.fences, b.retries);
    }
  }

  lemma {:induction false} RunOk(c: Context, a: Arena, moves: seq<Move>)
    requires Ok(a)
    ensures Ok(RunAll(c, a, moves))
    decreases |moves|
  {
    if moves != [] {
      StepOk(c, a, moves[0]);
      RunOk(c, Step(c, a, moves[0]), moves[1..]);
    }
  }

  /** At any time at most one coordinator is unfenced, and it is the newest acquirer. */
  lemma {:induction false} AtMostOneUnfenced(c: Context, moves: seq<Move>, i: nat, j: nat)
    requires Unfenced(RunAll(c, START, moves), i) && Unfenced(RunAll(c, START, moves), j)
    ensures i == j && RunAll(c, START, moves).newest == Some(i)
  {
    RunOk(c, START, moves);
  }

  /* Convergence. */

  /** Every reconciliation in the run uses the one view, by a node listed in it. */
  predicate SharesView(moves: seq<Move>, view: seq<NodeView>) {
    forall m | m in moves && m.Reconcile? :: m.view == view && exists v | v in view :: v.nodeId == m.node
  }

  /** The nodes that reconcile during a run. */
  function Reconcilers(moves: seq<Move>): set<Bytes> {
    set m | m in moves && m.Reconcile? :: m.node
  }

  /** The node the view ranks first. */
  function Top(c: Context, view: seq<NodeView>): Option<Bytes> {
    var ranked := Rank(c.url, OfService(CompactorCoordinator), Candidates(view, CompactorCoordinator));
    if ranked == [] then None else Some(ranked[0])
  }

  predicate Registered(c: Context) {
    c.url in c.dbs && CompactorCoordinator in c.dbs[c.url].services
  }

  lemma ListedOwns(c: Context, view: seq<NodeView>, node: Bytes, services: seq<Service>)
    requires Registered(c) && exists v :: v in view && v.nodeId == node
    ensures Owns(node, WithSelf(node, services, view), c.dbs, Key(c)) <==> Top(c, view) == Some(node)
  {
    var ranked := Rank(c.url, OfService(CompactorCoordinator), Candidates(view, CompactorCoordinator));
    assert WithSelf(node, services, view) == view;
    var owners := Take(ranked, 1);
    if ranked != [] {
      assert owners == [ranked[0]];
    }
  }

  /** Of the nodes `done`, only the top one has a standing runner. */
  ghost predicate SettledFor(a: Arena, done: set<Bytes>, top: Option<Bytes>) {
    forall i | 0 <= i < |a.runners| && Stands(a.runners[i]) && a.runners[i].node in done ::
        Some(a.runners[i].node) == top
  }

  lemma {:induction false} StepSettles(c: Context, a: Arena, m: Move, view: seq<NodeView>, done: set<Bytes>)
    requires Registered(c) && SettledFor(a, done, Top(c, view)) && SharesView([m], view)
    ensures SettledFor(Step(c, a, m), done + Reconcilers([m]), Top(c, view))
  {
    hide Owns, Top, WithSelf;
    var b := Step(c, a, m);
    assert m in [m];
    if m.Reconcile? {
      ListedOwns(c, view, m.node, m.services);
    }
    forall i | 0 <= i < |b.runners| && Stands(b.runners[i]) && b.runners[i].node in done + Reconcilers([m])
      ensures Some(b.runners[i].node) == Top(c, view)
    {
      if i < |a.runners| && b.runners[i].node in done {
        assert b.runners[i].node == a.runners[i].node && Stands(a.runners[i]);
      }
    }
  }

  lemma {:induction false} RunSettles(c: Context, a: Arena, moves: seq<Move>, view: seq<NodeView>, done: set<Bytes>)
    requires Registered(c) && SettledFor(a, done, Top(c, view)) && SharesView(moves, view)
    ensures SettledFor(RunAll(c, a, moves), done + Reconcilers(moves), Top(c, view))
    decreases |moves|
  {
    hide Top;
    if moves == [] {
      assert done + Reconcilers(moves) == done;
    } else {
      var m := moves[0];
      assert m in moves;
      StepSettles(c, a, m, view, done);
      RunSettles(c, Step(c, a, m), moves[1..], view, done + Reconcilers([m]));
      assert moves == [m] + moves[1..];
      assert done + Reconcilers([m]) + Reconcilers(moves[1..]) == done + Reconcilers(moves);
    }
  }

  /** Once all nodes share a view and each has reconciled, only the top-ranked node
      has a standing coordinator. */
  lemma {:induction false} OnlyTheTopStands(c: Context, a: Arena, moves: seq<Move>, view: seq<NodeView>)
    requires Registered(c) && SharesView(moves, view)
    requires forall r | r in RunAll(c, a, moves).runners :: r.node in Reconcilers(moves)
    ensures forall r | r in RunAll(c, a, moves).runners && Stands(r) :: Some(r.node) == Top(c, view)
  {
    assert SettledFor(a, {}, Top(c, view));
    RunSettles(c, a, moves, view, {});
    var b := RunAll(c, a, moves);
    forall r | r in b.runners && Stands(r) ensures Some(r.node) == Top(c, view) {
      var i :| 0 <= i < |b.runners| && b.runners[i] == r;
      assert r.node in {} + Reconcilers(moves);
    }
  }

  /* The fence retry, from there on. */

  /** Only `top` has a standing runner: what `OnlyTheTopStands` concludes. */
  ghost predicate TopOnly(a: Arena, top: Option<Bytes>) {
    forall i | 0 <= i < |a.runners| && Stands(a.runners[i]) :: Some(a.runners[i].node) == top
  }

  predicate CanAcquire(r: Runner) {
    r.stage.Starting? || r.stage.Pausing?
  }

  /** A cancelled runner that may get one more acquisition in. */
  predicate Straggles(r: Runner) {
    r.cancelled && CanAcquire(r)
  }

  /** No cancelled runner can acquire any more. */
  predicate NoStragglers(a: Arena) {
    forall r | r in a.runners :: !Straggles(r)
  }

  function Total(f: Runner -> nat, rs: seq<Runner>): nat {
    if rs == [] then 0 else f(rs[0]) + Total(f, rs[1..])
  }

  const STRAGGLING: Runner -> nat := r => if Straggles(r) then 1 else 0

  /** The fences a cancelled runner can still bring about: its own, and the one its
      acquisition causes. */
  const OUTGOING: Runner -> nat := r =>
    if Straggles(r) then 2 else if r.cancelled && r.stage.Holding? then 1 else 0

  lemma {:induction false} TotalUpdate(f: Runner -> nat, rs: seq<Runner>, i: nat, r: Runner)
    requires i < |rs|
    ensures Total(f, rs[i := r]) + f(rs[i]) == Total(f, rs) + f(r)
  {
    if i == 0 {
      assert rs[0 := r][1..] == rs[1..];
    } else {
      assert rs[i := r][1..] == rs[1..][i - 1 := r] && rs[i := r][0] == rs[0];
      TotalUpdate(f, rs[1..], i - 1, r);
    }
  }

  lemma {:induction false} TotalSame(f: Runner -> nat, a: seq<Runner>, b: seq<Runner>)
    requires |a| == |b| && forall i | 0 <= i < |a| :: f(a[i]) == f(b[i])
    ensures Total(f, a) == Total(f, b)
  {
    if a != [] {
      TotalSame(f, a[1..], b[1..]);
    }
  }

  lemma {:induction false} TotalAppend(f: Runner -> nat, rs: seq<Runner>, r: Runner)
    ensures Total(f, rs + [r]) == Total(f, rs) + f(r)
  {
    if rs == [] {
      assert Total(f, [r]) == f(r) + Total(f, [r][1..]);
      assert rs + [r] == [r];
    } else {
      assert (rs + [r])[0] == rs[0] && (rs + [r])[1..] == rs[1..] + [r];
      TotalAppend(f, rs[1..], r);
    }
  }

  lemma {:induction false} TotalZero(f: Runner -> nat, rs: seq<Runner>)
    requires forall r | r in rs :: f(r) == 0
    ensures Total(f, rs) == 0
  {
    if rs != [] {
      TotalZero(f, rs[1..]);
    }
  }

  function Stragglers(a: Arena): nat {
    Total(STRAGGLING, a.runners)
  }

  function Outgoing(a: Arena): nat {
    Total(OUTGOING, a.runners)
  }

  /** One, if the standing runner holds an epoch that is no longer the newest. */
  ghost function Stale(a: Arena): nat {
    if exists i :: 0 <= i < |a.runners| && IsStale(a, i) then 1 else 0
  }

  predicate IsStale(a: Arena, i: nat)
    requires i < |a.runners|
  {
    Stands(a.runners[i]) && a.runners[i].stage.Holding? && a.runners[i].stage.epoch < a.epoch
  }

  lemma OneStands(a: Arena, top: Option<Bytes>, i: nat, j: nat)
    requires Ok(a) && TopOnly(a, top) && i < |a.runners| && j < |a.runners|
    requires Stands(a.runners[i]) && Stands(a.runners[j])
    ensures i == j
  {
  }

  /** How many fences may still be noticed, and how many retries follow, when `n`
      replacements come in between: each makes a straggler. */
  ghost predicate WeighsNoMore(a: Arena, b: Arena, n: nat) {
    && b.retries + Stragglers(b) + Stale(b) <= a.retries + Stragglers(a) + Stale(a) + n
    && b.fences + Outgoing(b) + Stale(b) <= a.fences + Outgoing(a) + Stale(a) + 2 * n
  }

  function Replacements(moves: seq<Move>): nat {
    if moves == [] then 0 else (if Replaces(moves[0]) then 1 else 0) + Replacements(moves[1..])
  }

  /** A step of one runner, on the standing one or on a cancelled one. */
  lemma RunnerWeighs(c: Context, a: Arena, m: Move, top: Option<Bytes>)
    requires Ok(a) && TopOnly(a, top) && !m.Reconcile? && m.i < |a.runners|
    ensures TopOnly(Step(c, a, m), top) && WeighsNoMore(a, Step(c, a, m), 0)
  {
    hide Ok;
    var b := Step(c, a, m);
    var was := a.runners[m.i];
    var now := b.runners[m.i];
    if b != a {
      assert b.runners == a.runners[m.i := now] && now.cancelled == was.cancelled;
      TotalUpdate(STRAGGLING, a.runners, m.i, now);
      TotalUpdate(OUTGOING, a.runners, m.i, now);
      StaleAfter(a, b, top, m.i);
    }
  }

  /** What one runner's step does to staleness: a standing runner's own step decides
      it; a cancelled one's matters only if it acquires. */
  lemma StaleAfter(a: Arena, b: Arena, top: Option<Bytes>, i: nat)
    requires Ok(a) && TopOnly(a, top) && i < |a.runners| && |b.runners| == |a.runners|
    requires b.runners == a.runners[i := b.runners[i]] && b.runners[i].cancelled == a.runners[i].cancelled
    requires b.runners[i].stage.Gone? || !a.runners[i].stage.Gone?
    requires a.epoch <= b.epoch
    ensures Stands(b.runners[i]) ==> (Stale(b) == 1 <==> IsStale(b, i))
    ensures Stands(a.runners[i]) ==> (Stale(a) == 1 <==> IsStale(a, i))
    ensures Stands(a.runners[i]) && !Stands(b.runners[i]) ==> Stale(b) == 0
    ensures !Stands(a.runners[i]) && b.epoch == a.epoch ==> Stale(b) == Stale(a)
  {
    forall j | 0 <= j < |a.runners| && Stands(a.runners[i]) && Stands(a.runners[j]) ensures j == i {
      OneStands(a, top, i, j);
    }
    assert forall j | 0 <= j < |a.runners| && j != i :: b.runners[j] == a.runners[j];
    if Stale(b) == 1 {
      var j :| 0 <= j < |b.runners| && IsStale(b, j);
      assert j != i ==> Stands(a.runners[j]);
      assert j != i && b.epoch == a.epoch ==> IsStale(a, j);
    }
    if Stale(a) == 1 {
      var j :| 0 <= j < |a.runners| && IsStale(a, j);
      assert j != i && b.epoch == a.epoch ==> IsStale(b, j);
    }
  }

  /** Cancelling the runners of a node other than the top's changes nothing that counts. */
  lemma CancelElsewhere(a: Arena, node: Bytes, top: Option<Bytes>)
    requires TopOnly(a, top) && top != Some(node)
    ensures Total(STRAGGLING, Cancelled(a.runners, node)) == Stragglers(a)
    ensures Total(OUTGOING, Cancelled(a.runners, node)) == Outgoing(a)
    ensures forall i | 0 <= i < |a.runners| && Cancelled(a.runners, node)[i] != a.runners[i] ::
              Cancelled(a.runners, node)[i].stage.Gone? && a.runners[i].stage.Gone?
  {
    var rs := Cancelled(a.runners, node);
    forall i | 0 <= i < |rs| && rs[i] != a.runners[i]
      ensures rs[i].stage.Gone? && a.runners[i].stage.Gone?
    {
      assert !Stands(a.runners[i]);
    }
    TotalSame(STRAGGLING, rs, a.runners);
    TotalSame(OUTGOING, rs, a.runners);
  }

  /** Cancelling the top's runners makes at most one straggler, or one cancelled holder. */
  lemma CancelTop(a: Arena, node: Bytes, top: Option<Bytes>)
    requires Ok(a) && TopOnly(a, top)
    ensures Total(STRAGGLING, Cancelled(a.runners, node)) <= Stragglers(a) + 1
    ensures Total(OUTGOING, Cancelled(a.runners, node)) <= Outgoing(a) + 2
  {
    var rs := Cancelled(a.runners, node);
    if j :| 0 <= j < |a.runners| && Stands(a.runners[j]) && a.runners[j].node == node {
      var one := a.runners[j := rs[j]];
      forall i | 0 <= i < |rs|
        ensures STRAGGLING(rs[i]) == STRAGGLING(one[i]) && OUTGOING(rs[i]) == OUTGOING(one[i])
      {
        assert i != j ==> !(Stands(a.runners[i]) && a.runners[i].node == node);
      }
      TotalSame(STRAGGLING, rs, one);
      TotalSame(OUTGOING, rs, one);
      TotalUpdate(STRAGGLING, a.runners, j, rs[j]);
      TotalUpdate(OUTGOING, a.runners, j, rs[j]);
    } else {
      TotalSame(STRAGGLING, rs, a.runners);
      TotalSame(OUTGOING, rs, a.runners);
    }
  }

  lemma ReconcileWeighs(c: Context, a: Arena, m: Move, top: Option<Bytes>)
    requires Ok(a) && TopOnly(a, top) && m.Reconcile?
    requires Owns(m.node, WithSelf(m.node, m.services, m.view), c.dbs, Key(c)) <==> top == Some(m.node)
    ensures TopOnly(Step(c, a, m), top) && WeighsNoMore(a, Step(c, a, m), if m.changed then 1 else 0)
  {
    hide Owns, WithSelf, Ok;
    var b := Step(c, a, m);
    var starter := Runner(m.node, false, Starting);
    if top != Some(m.node) {
      CancelElsewhere(a, m.node, top);
    } else if m.changed {
      CancelTop(a, m.node, top);
      TotalAppend(STRAGGLING, Cancelled(a.runners, m.node), starter);
      TotalAppend(OUTGOING, Cancelled(a.runners, m.node), starter);
    } else if b != a {
      TotalAppend(STRAGGLING, a.runners, starter);
      TotalAppend(OUTGOING, a.runners, starter);
    }
    if Stale(b) == 1 {
      var i :| 0 <= i < |b.runners| && IsStale(b, i);
      assert i < |a.runners| && IsStale(a, i);
    }
  }

  /** Unless it is replaced, the standing runner is left alone, and no straggler is made. */
  lemma ReconcileSpares(c: Context, a: Arena, m: Move, top: Option<Bytes>)
    requires TopOnly(a, top) && m.Reconcile? && (m.changed ==> top != Some(m.node))
    requires Owns(m.node, WithSelf(m.node, m.services, m.view), c.dbs, Key(c)) <==> top == Some(m.node)
    ensures forall i | 0 <= i < |a.runners| && Stands(a.runners[i]) :: Step(c, a, m).runners[i] == a.runners[i]
    ensures forall r | r in Step(c, a, m).runners && Straggles(r) :: r in a.runners
  {
    hide Owns, WithSelf;
    if top != Some(m.node) {
      CancelElsewhere(a, m.node, top);
    }
  }

  lemma StepWeighs(c: Context, a: Arena, m: Move, view: seq<NodeView>)
    requires Registered(c) && Ok(a) && TopOnly(a, Top(c, view)) && SharesView([m], view)
    ensures var b := Step(c, a, m);
            Ok(b) && TopOnly(b, Top(c, view)) && WeighsNoMore(a, b, if Replaces(m) then 1 else 0)
  {
    hide Ok, TopOnly, WeighsNoMore, Owns, Top, WithSelf;
    assert m in [m];
    StepOk(c, a, m);
    if m.Reconcile? {
      ListedOwns(c, view, m.node, m.services);
      ReconcileWeighs(c, a, m, Top(c, view));
    } else if m.i < |a.runners| {
      RunnerWeighs(c, a, m, Top(c, view));
    } else {
      NothingWeighs(a);
    }
  }

  lemma NothingWeighs(a: Arena)
    ensures WeighsNoMore(a, a, 0)
  {
  }

  lemma {:induction false} RunWeighs(c: Context, a: Arena, moves: seq<Move>, view: seq<NodeView>)
    requires Registered(c) && Ok(a) && TopOnly(a, Top(c, view)) && SharesView(moves, view)
    ensures var b := RunAll(c, a, moves); Ok(b) && TopOnly(b, Top(c, view)) && WeighsNoMore(a, b, Replacements(moves))
    decreases |moves|
  {
    hide Ok, TopOnly, Top, Step;
    if moves == [] {
      NothingWeighs(a);
    } else {
      assert moves[0] in moves;
      StepWeighs(c, a, moves[0], view);
      RunWeighs(c, Step(c, a, moves[0]), moves[1..], view);
    }
  }

  /** The whole claim as one run. After `before`, in which every node with a runner
      reconciled on one view, and during any `after` on that view: only the top-ranked
      node's coordinator stands; it retries at most once for itself, once for each
      cancelled runner that can still acquire and once for each replacement by a changed
      configuration, so at most once more when there is neither; and all fences together
      are bounded by twice those and once the cancelled holders, so at most one more when
      no cancelled runner is left and none is replaced. */
  lemma {:induction false} FencingSettles(c: Context, a: Arena, before: seq<Move>, after: seq<Move>,
                                          view: seq<NodeView>)
    requires Registered(c) && Ok(a) && SharesView(before, view) && SharesView(after, view)
    requires forall r | r in RunAll(c, a, before).runners :: r.node in Reconcilers(before)
    ensures var b := RunAll(c, a, before);
            var d := RunAll(c, b, after);
            && (forall r | r in d.runners && Stands(r) :: Some(r.node) == Top(c, view))
            && d.retries <= b.retries + Stragglers(b) + Stale(b) + Replacements(after)
            && d.fences <= b.fences + Outgoing(b) + Stale(b) + 2 * Replacements(after)
            && (NoStragglers(b) ==> d.retries <= b.retries + 1 + Replacements(after))
            && (Drained(b) ==> d.fences <= b.fences + 1 + 2 * Replacements(after))
  {
    hide Top, Ok;
    var b := RunAll(c, a, before);
    var d := RunAll(c, b, after);
    RunOk(c, a, before);
    OnlyTheTopStands(c, a, before, view);
    assert TopOnly(b, Top(c, view)) by {
      forall i | 0 <= i < |b.runners| && Stands(b.runners[i]) ensures Some(b.runners[i].node) == Top(c, view) {
        assert b.runners[i] in b.runners;
      }
    }
    RunWeighs(c, b, after, view);
    if NoStragglers(b) { TotalZero(STRAGGLING, b.runners); }
    if Drained(b) { TotalZero(OUTGOING, b.runners); }
  }

  /** Every cancelled runner has exited. */
  predicate Drained(a: Arena) {
    forall r | r in a.runners :: !r.cancelled || r.stage.Gone?
  }

  /** A straggler does cost: it fences the standing coordinator, which takes the epoch
      back, which fences the straggler. */
  lemma {:induction false} StragglerCosts(c: Context, top: Bytes, other: Bytes, view: seq<NodeView>)
    requires Top(c, view) == Some(top) && top != other
    ensures var a := Arena(2, [Runner(top, false, Holding(2)), Runner(other, true, Pausing)], Some(0), 0, 0);
            var moves := [Resume(1), Acquire(1), NoticeFence(0), Resume(0), Acquire(0), NoticeFence(1)];
            && Ok(a) && TopOnly(a, Top(c, view)) && SharesView(moves, view)
            && RunAll(c, a, moves).fences == 2 && RunAll(c, a, moves).retries == 1
  {
    hide Top, RunAll;
    var a := Arena(2, [Runner(top, false, Holding(2)), Runner(other, true, Pausing)], Some(0), 0, 0);
    var moves := [Resume(1), Acquire(1), NoticeFence(0), Resume(0), Acquire(0), NoticeFence(1)];
    RunSix(c, a, moves);
    var b := Step(c, Step(c, Step(c, a, Resume(1)), Acquire(1)), NoticeFence(0));
    assert b == Arena(3, [Runner(top, false, Pausing), Runner(other, true, Holding(3))], Some(1), 1, 1);
  }

  lemma RunSix(c: Context, a: Arena, moves: seq<Move>)
    requires |moves| == 6
    ensures RunAll(c, a, moves) ==
            var b := Step(c, Step(c, Step(c, a, moves[0]), moves[1]), moves[2]);
            Step(c, Step(c, Step(c, b, moves[3]), moves[4]), moves[5])
  {
    hide Step;
    RunThree(c, a, moves[..3]);
    var b := RunAll(c, a, moves[..3]);
    RunThree(c, b, moves[3..]);
    assert moves == moves[..3] + moves[3..];
    RunAppend(c, a, moves[..3], moves[3..]);
  }

  lemma RunThree(c: Context, a: Arena, moves: seq<Move>)
    requires |moves| == 3
    ensures RunAll(c, a, moves) == Step(c, Step(c, Step(c, a, moves[0]), moves[1]), moves[2])
  {
    hide Step;
    var x := Step(c, a, moves[0]);
    var y := Step(c, x, moves[1]);
    assert moves[1..][0] == moves[1] && moves[1..][1..] == [moves[2]] && [moves[2]][1..] == [];
    assert RunAll(c, y, [moves[2]]) == RunAll(c, Step(c, y, moves[2]), []);
    assert RunAll(c, x, moves[1..]) == RunAll(c, y, [moves[2]]);
  }

  lemma {:induction false} RunAppend(c: Context, a: Arena, p: seq<Move>, q: seq<Move>)
    ensures RunAll(c, a, p + q) == RunAll(c, RunAll(c, a, p), q)
    decreases |p|
  {
    hide Step;
    if p == [] {
      assert p + q == q;
    } else {
      assert (p + q)[0] == p[0] && (p + q)[1..] == p[1..] + q;
      RunAppend(c, Step(c, a, p[0]), p[1..], q);
    }
  }

  /** The moves leave runner `i` of `node` to run: it neither fails nor exits, and is not
      replaced. */
  predicate LeavesRunning(moves: seq<Move>, i: nat, node: Bytes) {
    forall m | m in moves :: m != Fail(i) && m != Leave(i) && !(Replaces(m) && m.node == node)
  }

  /** The standing coordinator holds the newest epoch and nobody can take it. */
  ghost predicate Secure(a: Arena, top: Option<Bytes>, i: nat) {
    Ok(a) && TopOnly(a, top) && Unfenced(a, i) && Stands(a.runners[i]) && NoStragglers(a)
  }

  lemma StepSecure(c: Context, a: Arena, m: Move, view: seq<NodeView>, i: nat)
    requires Registered(c) && Secure(a, Top(c, view), i) && SharesView([m], view)
    requires LeavesRunning([m], i, a.runners[i].node)
    ensures Secure(Step(c, a, m), Top(c, view), i) && Step(c, a, m).runners[i].node == a.runners[i].node
  {
    hide Owns, Top, WithSelf;
    var b := Step(c, a, m);
    assert m in [m];
    StepWeighs(c, a, m, view);
    if m.Reconcile? {
      ListedOwns(c, view, m.node, m.services);
      ReconcileSpares(c, a, m, Top(c, view));
      assert b.runners[i] == a.runners[i];
    } else if m.i < |a.runners| && b != a {
      if Stands(a.runners[m.i]) { OneStands(a, Top(c, view), i, m.i); }
      assert a.runners[m.i] in a.runners;
      assert m.i != i && !a.runners[m.i].stage.Starting?;
      forall r | r in b.runners ensures !Straggles(r) {
        var j :| 0 <= j < |b.runners| && b.runners[j] == r;
        assert a.runners[j] in a.runners;
      }
    }
  }

  lemma SecureBound(a: Arena, top: Option<Bytes>, i: nat)
    requires Secure(a, top, i)
    ensures i < |a.runners|
  {
  }

  lemma {:induction false} RunSecure(c: Context, a: Arena, moves: seq<Move>, view: seq<NodeView>, i: nat)
    requires Registered(c) && Secure(a, Top(c, view), i) && SharesView(moves, view)
    requires LeavesRunning(moves, i, a.runners[i].node)
    ensures Secure(RunAll(c, a, moves), Top(c, view), i)
    decreases |moves|
  {
    hide Top, Secure, Step;
    if moves != [] {
      assert moves[0] in moves;
      SecureBound(a, Top(c, view), i);
      StepSecure(c, a, moves[0], view, i);
      assert forall m | m in moves[1..] :: m in moves;
      RunSecure(c, Step(c, a, moves[0]), moves[1..], view, i);
    }
  }

  /** The standing coordinator that holds the epoch keeps it for good, for as long as it
      runs, exactly when no cancelled runner can still acquire. */
  lemma {:induction false} HoldsForGoodExactly(c: Context, a: Arena, view: seq<NodeView>, i: nat)
    requires Registered(c) && Ok(a) && TopOnly(a, Top(c, view)) && Unfenced(a, i) && Stands(a.runners[i])
    ensures NoStragglers(a) <==>
            forall moves | SharesView(moves, view) && LeavesRunning(moves, i, a.runners[i].node) ::
              Unfenced(RunAll(c, a, moves), i)
  {
    hide Top;
    if NoStragglers(a) {
      forall moves | SharesView(moves, view) && LeavesRunning(moves, i, a.runners[i].node)
        ensures Unfenced(RunAll(c, a, moves), i)
      {
        RunSecure(c, a, moves, view, i);
      }
    } else {
      var r :| r in a.runners && Straggles(r);
      var j :| 0 <= j < |a.runners| && a.runners[j] == r;
      StragglerTakes(c, a, view, i, j);
    }
  }

  lemma StragglerTakes(c: Context, a: Arena, view: seq<NodeView>, i: nat, j: nat)
    requires Unfenced(a, i) && Stands(a.runners[i]) && j < |a.runners| && Straggles(a.runners[j])
    ensures var moves := [Resume(j), Acquire(j)];
            SharesView(moves, view) && LeavesRunning(moves, i, a.runners[i].node) && !Unfenced(RunAll(c, a, moves), i)
  {
    var moves := [Resume(j), Acquire(j)];
    var x := Step(c, a, Resume(j));
    var y := Step(c, x, Acquire(j));
    assert moves[1..] == [Acquire(j)] && moves[1..][1..] == [];
    assert RunAll(c, a, moves) == RunAll(c, x, moves[1..]);
    assert RunAll(c, x, [Acquire(j)]) == RunAll(c, y, [Acquire(j)][1..]) == RunAll(c, y, []) == y;
    assert y.epoch == a.epoch + 1 && y.runners[i] == a.runners[i];
  }

  /** Wherever the standing runner is, one more try gives it the epoch. */
  lemma OneRetryRegains(c: Context, a: Arena, i: nat)
    requires Ok(a) && i < |a.runners| && Stands(a.runners[i])
    ensures Unfenced(RunAll(c, a, [NoticeFence(i), Resume(i), Acquire(i)]), i)
    ensures RunAll(c, a, [NoticeFence(i), Resume(i), Acquire(i)]).retries <= a.retries + 1
  {
    RunThree(c, a, [NoticeFence(i), Resume(i), Acquire(i)]);
  }

  /* Liveness. */

  ghost predicate NodeStands(a: Arena, node: Bytes) {
    exists i :: 0 <= i < |a.runners| && a.runners[i].node == node && Stands(a.runners[i])
  }

  /** Runner `i` is the only one that stands. */
  ghost predicate StandsAlone(a: Arena, i: nat) {
    && i < |a.runners| && Stands(a.runners[i])
    && forall j | 0 <= j < |a.runners| && Stands(a.runners[j]) :: j == i
  }

  /** No standing runner of `node` exits of itself. */
  predicate NoneExits(c: Context, a: Arena, moves: seq<Move>, node: Bytes)
    decreases |moves|
  {
    moves == [] ||
    ((moves[0].Leave? && moves[0].i < |a.runners| && a.runners[moves[0].i].node == node
      ==> !Stands(a.runners[moves[0].i]))
     && NoneExits(c, Step(c, a, moves[0]), moves[1..], node))
  }

  lemma ReconcileStarts(c: Context, a: Arena, m: Move, view: seq<NodeView>)
    requires Registered(c) && SharesView([m], view) && m.Reconcile? && Top(c, view) == Some(m.node)
    ensures NodeStands(Step(c, a, m), m.node)
  {
    hide Owns, Top, WithSelf;
    assert m in [m];
    ListedOwns(c, view, m.node, m.services);
    var b := Step(c, a, m);
    if r :| r in a.runners && r.node == m.node && Stands(r) && b == a {
      var i :| 0 <= i < |a.runners| && a.runners[i] == r;
    } else {
      assert b.runners[|b.runners| - 1] == Runner(m.node, false, Starting);
    }
  }

  lemma StepKeepsStanding(c: Context, a: Arena, m: Move, view: seq<NodeView>, node: Bytes)
    requires Registered(c) && SharesView([m], view) && Top(c, view) == Some(node)
    requires NodeStands(a, node) && NoneExits(c, a, [m], node)
    ensures NodeStands(Step(c, a, m), node)
  {
    hide Owns, Top, WithSelf;
    assert m in [m];
    var i :| 0 <= i < |a.runners| && a.runners[i].node == node && Stands(a.runners[i]);
    var b := Step(c, a, m);
    if !m.Reconcile? {
      assert b.runners[i].node == node && Stands(b.runners[i]);
    } else if m.node == node {
      ReconcileStarts(c, a, m, view);
    } else {
      ListedOwns(c, view, m.node, m.services);
      assert b.runners[i] == a.runners[i];
    }
  }

  lemma {:induction false} RunKeepsStanding(c: Context, a: Arena, moves: seq<Move>, view: seq<NodeView>, node: Bytes)
    requires Registered(c) && SharesView(moves, view) && Top(c, view) == Some(node)
    requires NodeStands(a, node) && NoneExits(c, a, moves, node)
    ensures NodeStands(RunAll(c, a, moves), node)
    decreases |moves|
  {
    hide Top, Step, NodeStands;
    if moves != [] {
      assert moves[0] in moves && NoneExits(c, Step(c, a, moves[0]), [], node);
      assert [moves[0]][1..] == [];
      StepKeepsStanding(c, a, moves[0], view, node);
      assert forall m | m in moves[1..] :: m in moves;
      RunKeepsStanding(c, Step(c, a, moves[0]), moves[1..], view, node);
    }
  }

  /** Once all nodes share a view and each has reconciled, and the top-ranked one's
      coordinator has not exited since that node did, exactly one coordinator stands, on
      the top-ranked node. */
  lemma ExactlyOneStands(c: Context, a: Arena, p: seq<Move>, m: Move, q: seq<Move>, view: seq<NodeView>)
    requires Registered(c) && Ok(a) && SharesView(p + [m] + q, view)
    requires forall r | r in RunAll(c, a, p + [m] + q).runners :: r.node in Reconcilers(p + [m] + q)
    requires m.Reconcile? && Top(c, view) == Some(m.node) && NoneExits(c, RunAll(c, a, p + [m]), q, m.node)
    ensures exists i: nat :: StandsAlone(RunAll(c, a, p + [m] + q), i)
                        && RunAll(c, a, p + [m] + q).runners[i].node == m.node
  {
    hide Top, Step, Ok, NodeStands;
    var x := RunAll(c, a, p);
    var y := RunAll(c, a, p + [m]);
    var z := RunAll(c, a, p + [m] + q);
    RunAppend(c, a, p, [m]);
    RunAppend(c, a, p + [m], q);
    assert RunAll(c, x, [m]) == RunAll(c, Step(c, x, m), []);
    assert m in p + [m] + q;
    forall n | n in q ensures n in p + [m] + q {}
    ReconcileStarts(c, x, m, view);
    RunKeepsStanding(c, y, q, view, m.node);
    RunOk(c, a, p + [m] + q);
    OnlyTheTopStands(c, a, p + [m] + q, view);
    StandingIsAlone(z, m.node);
  }

  lemma StandingIsAlone(a: Arena, node: Bytes)
    requires Ok(a) && NodeStands(a, node) && forall r | r in a.runners && Stands(r) :: r.node == node
    ensures exists i: nat :: StandsAlone(a, i) && a.runners[i].node == node
  {
    var i :| 0 <= i < |a.runners| && a.runners[i].node == node && Stands(a.runners[i]);
    forall j | 0 <= j < |a.runners| && Stands(a.runners[j]) ensures j == i {
      assert a.runners[j] in a.runners;
    }
    assert StandsAlone(a, i);
  }

  /** The exits of the cancelled ones among the first `n` runners. */
  function Exits(rs: seq<Runner>, n: nat): seq<Move>
    requires n <= |rs|
  {
    if n == 0 then [] else Exits(rs, n - 1) + if rs[n - 1].cancelled then [Leave(n - 1)] else []
  }

  /** The cancelled ones among the first `n` runners are gone, and nothing else has changed. */
  ghost predicate Drains(a: Arena, b: Arena, n: nat) {
    && |b.runners| == |a.runners| && b == a.(runners := b.runners)
    && (forall i | 0 <= i < |a.runners| && (i >= n || !a.runners[i].cancelled) :: b.runners[i] == a.runners[i])
    && forall i | 0 <= i < |a.runners| && i < n && a.runners[i].cancelled ::
         b.runners[i] == a.runners[i].(stage := Gone)
  }

  lemma OneMoreDrains(c: Context, a: Arena, b: Arena, n: nat)
    requires n < |a.runners| && Drains(a, b, n)
    ensures Drains(a, if a.runners[n].cancelled then Step(c, b, Leave(n)) else b, n + 1)
  {
  }

  lemma {:induction false} ExitsDrain(c: Context, a: Arena, n: nat)
    requires n <= |a.runners|
    ensures Drains(a, RunAll(c, a, Exits(a.runners, n)), n) && |Exits(a.runners, n)| <= n
  {
    hide Step, Drains;
    if n == 0 {
      NothingDrains(a);
    } else {
      ExitsDrain(c, a, n - 1);
      var before := RunAll(c, a, Exits(a.runners, n - 1));
      OneMoreDrains(c, a, before, n - 1);
      if a.runners[n - 1].cancelled {
        RunAppend(c, a, Exits(a.runners, n - 1), [Leave(n - 1)]);
        assert RunAll(c, before, [Leave(n - 1)]) == RunAll(c, Step(c, before, Leave(n - 1)), []);
      } else {
        assert Exits(a.runners, n) == Exits(a.runners, n - 1);
      }
    }
  }

  lemma NothingDrains(a: Arena)
    ensures Drains(a, a, 0)
  {
  }

  /** How the standing coordinator `i` comes to hold the epoch for good: the cancelled ones
      exit, it notices that it was fenced if it was, and it acquires. */
  function TakeOver(a: Arena, i: nat): seq<Move> {
    Exits(a.runners, |a.runners|) + [NoticeFence(i), Resume(i), Acquire(i)]
  }

  /** From where exactly one stands, that many moves make it unfenced and the newest; and
      from there it stays so for as long as it runs. */
  lemma {:induction false} TheTopTakesOver(c: Context, a: Arena, view: seq<NodeView>, i: nat)
    requires Registered(c) && Ok(a) && StandsAlone(a, i) && Top(c, view) == Some(a.runners[i].node)
    ensures |TakeOver(a, i)| <= |a.runners| + 3
    ensures var b := RunAll(c, a, TakeOver(a, i));
            && StandsAlone(b, i) && Unfenced(b, i) && b.newest == Some(i) && b.retries <= a.retries + 1
            && forall moves | SharesView(moves, view) && LeavesRunning(moves, i, b.runners[i].node) ::
                 Unfenced(RunAll(c, b, moves), i)
  {
    hide Top, Ok, Step, RunAll;
    var exits := Exits(a.runners, |a.runners|);
    var last := [NoticeFence(i), Resume(i), Acquire(i)];
    ExitsDrain(c, a, |a.runners|);
    var x := RunAll(c, a, exits);
    RunOk(c, a, exits);
    RunAppend(c, a, exits, last);
    RunOk(c, x, last);
    LastThree(c, x, i);
    var b := RunAll(c, x, last);
    DrainedForGood(a, x, b, i);
    HoldsForGoodExactly(c, b, view, i);
  }

  lemma DrainedForGood(a: Arena, x: Arena, b: Arena, i: nat)
    requires StandsAlone(a, i) && Drains(a, x, |a.runners|) && |b.runners| == |x.runners|
    requires Ok(b) && Unfenced(b, i) && OnlyMoves(x, b, i)
    ensures StandsAlone(b, i) && NoStragglers(b) && b.newest == Some(i) && TopOnly(b, Some(a.runners[i].node))
    ensures b.runners[i].node == a.runners[i].node
  {
    forall r | r in b.runners ensures !Straggles(r) {
      var j :| 0 <= j < |b.runners| && b.runners[j] == r;
    }
  }

  /** Nothing but the stage of runner `i` has changed. */
  ghost predicate OnlyMoves(a: Arena, b: Arena, i: nat) {
    && i < |a.runners| == |b.runners|
    && b.runners[i].cancelled == a.runners[i].cancelled && b.runners[i].node == a.runners[i].node
    && forall j | 0 <= j < |a.runners| && j != i :: b.runners[j] == a.runners[j]
  }

  lemma LastThree(c: Context, a: Arena, i: nat)
    requires Ok(a) && i < |a.runners| && Stands(a.runners[i])
    ensures var b := RunAll(c, a, [NoticeFence(i), Resume(i), Acquire(i)]);
            && Unfenced(b, i) && b.retries <= a.retries + 1 && |b.runners| == |a.runners| && OnlyMoves(a, b, i)
  {
    RunThree(c, a, [NoticeFence(i), Resume(i), Acquire(i)]);
  }

  /** Once a node has reconciled with a changed configuration, none of the runners it had
      before ever stands again. */
  lemma {:induction false} ChangeReplaces(c: Context, a: Arena, m: Move, q: seq<Move>)
    requires Replaces(m)
    ensures var b := RunAll(c, a, [m] + q);
            |a.runners| <= |b.runners|
            && forall i | 0 <= i < |a.runners| && a.runners[i].node == m.node :: !Stands(b.runners[i])
  {
    hide Owns, WithSelf;
    assert ([m] + q)[0] == m && ([m] + q)[1..] == q;
    var x := Step(c, a, m);
    assert forall i | 0 <= i < |a.runners| && a.runners[i].node == m.node :: x.runners[i].cancelled;
    StaysCancelled(c, x, q);
  }

  lemma {:induction false} StaysCancelled(c: Context, a: Arena, moves: seq<Move>)
    ensures var b := RunAll(c, a, moves);
            |a.runners| <= |b.runners|
            && forall i | 0 <= i < |a.runners| && a.runners[i].cancelled :: b.runners[i].cancelled
    decreases |moves|
  {
    hide Owns, WithSelf;
    if moves != [] {
      StaysCancelled(c, Step(c, a, moves[0]), moves[1..]);
    }
  }

  /** A plain failure gives the epoch up. A standing coordinator tries again, and the next
      try gives it a new one; a cancelled one is gone. */
  lemma FailureGivesUp(c: Context, a: Arena, i: nat)
    requires Ok(a) && i < |a.runners| && a.runners[i].stage.Holding?
    ensures var b := Step(c, a, Fail(i));
            && !Unfenced(b, i) && b.epoch == a.epoch && b.fences == a.fences && OnlyMoves(a, b, i)
            && (a.runners[i].cancelled ==> b.runners[i].stage.Gone?)
    ensures var d := RunAll(c, a, [Fail(i), Resume(i), Acquire(i)]);
            !a.runners[i].cancelled ==>
              d.epoch == a.epoch + 1 && Unfenced(d, i) && d.newest == Some(i) && OnlyMoves(a, d, i)
  {
    RunThree(c, a, [Fail(i), Resume(i), Acquire(i)]);
  }
}
