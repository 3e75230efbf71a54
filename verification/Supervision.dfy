/** Task supervision on one node (src/daemon.rs): reconciling the running tasks with
    the owned assignments, and the supervisors' shared state map. Every method is one
    step between two points where another thread may run; any order of steps may
    happen. */
module Supervision {
  import opened Wrappers
  import opened Services
  import opened Fleet

  const MAX_BACKOFF: nat := 60

  datatype TaskState = Working | Backoff

  /** Where a supervisor stands. `Spawned` has not been polled yet; `Ready` is about
      to announce itself as running; `Leaving` has left its loop. */
  datatype Phase = Spawned | Ready | Running | Waiting(delay: nat) | Leaving | Finished

  /** `failures` counts plain failures since the start or the last fence. */
  datatype Supervisor = Supervisor(
    key: Assignment, cancelled: bool, phase: Phase, instance: Option<nat>, backoff: nat, failures: nat)

  datatype RunningTask = RunningTask(sup: nat, fingerprint: nat)

  /** How one run of a task's body ends. */
  datatype RunResult = Clean | Fenced | Failed

  type States = map<Assignment, (nat, TaskState)>

  function Pow2(k: nat): (p: nat)
    ensures p >= 1
  {
    if k == 0 then 1 else 2 * Pow2(k - 1)
  }

  /** The delay after `k` plain failures in a row. */
  function Delay(k: nat): nat {
    Min(Pow2(k), MAX_BACKOFF)
  }

  /** `set_state`: write unless a newer instance owns the entry. */
  function SetState(states: States, key: Assignment, instance: nat, s: TaskState): States {
    if key in states && states[key].0 > instance then states else states[key := (instance, s)]
  }

  /** The end of a supervisor: remove only its own entry. */
  function Erase(states: States, key: Assignment, instance: nat): States {
    if key in states && states[key].0 == instance then states - {key} else states
  }

  /** Whether a write by instance `b` leaves instance `a`'s entry alone, and whether
      the erasure that ends it does too: exactly when `b` has the smaller number. */
  lemma StandsExactlyWhenNewer(states: States, key: Assignment, a: nat, b: nat, s: TaskState)
    requires key in states && states[key].0 == a && a != b
    ensures var after := Erase(SetState(states, key, b, s), key, b);
            (key in after && after[key] == states[key]) <==> b < a
  {
  }

  /** The tasks a node runs, every supervisor ever spawned in order of spawning, the
      shared state map, and the next instance number. */
  datatype View = View(
    tasks: map<Assignment, RunningTask>, sups: seq<Supervisor>, states: States, nextInstance: nat)

  /** Whether supervisor `s` has announced itself and not yet exited. */
  predicate Announced(s: Supervisor) {
    s.phase.Running? || s.phase.Waiting? || s.phase.Leaving?
  }

  /** Every other supervisor of the key that has an instance number has a smaller one
      than `c`: the numbers were taken in the order of spawning. */
  ghost predicate InOrder(v: View, c: nat)
    requires c < |v.sups|
  {
    forall i | 0 <= i < |v.sups| && i != c && v.sups[i].key == v.sups[c].key && v.sups[i].instance.Some? ::
      v.sups[c].instance.Some? && v.sups[i].instance.value < v.sups[c].instance.value
  }

  /** The state map shows supervisor `c`. */
  predicate ShownAs(v: View, c: nat)
    requires c < |v.sups|
  {
    v.sups[c].key in v.states && Some(v.states[v.sups[c].key].0) == v.sups[c].instance
  }

  ghost predicate TaskValid(v: View, key: Assignment)
    requires key in v.tasks
  {
    var i := v.tasks[key].sup;
    i < |v.sups| && v.sups[i].key == key && !v.sups[i].cancelled
    && (Announced(v.sups[i]) && InOrder(v, i) ==> ShownAs(v, i))
  }

  /** What holds of each supervisor by itself. */
  predicate SupOk(s: Supervisor, heartbeat: nat, nextInstance: nat) {
    && (s.phase.Spawned? <==> s.instance.None?)
    && (s.instance.Some? ==> s.instance.value < nextInstance)
    && s.backoff == Delay(s.failures)
    && (s.phase.Waiting? ==> s.phase.delay == if s.failures == 0 then heartbeat else Delay(s.failures))
  }

  ghost predicate SupValid(v: View, heartbeat: nat, i: nat)
    requires i < |v.sups|
  {
    var s := v.sups[i];
    SupOk(s, heartbeat, v.nextInstance)
    && (!s.cancelled && !s.phase.Finished? ==> s.key in v.tasks && v.tasks[s.key].sup == i)
  }

  predicate Writes(s: Supervisor, key: Assignment, instance: nat) {
    s.key == key && s.instance == Some(instance) && !s.phase.Finished?
  }

  /** The entry of a key was written by a supervisor of it that has not exited. */
  ghost predicate EntryValid(v: View, key: Assignment)
    requires key in v.states
  {
    exists i :: 0 <= i < |v.sups| && Writes(v.sups[i], key, v.states[key].0)
  }

  ghost predicate Numbered(v: View) {
    forall i, j | 0 <= i < j < |v.sups| && v.sups[i].instance.Some? :: v.sups[i].instance != v.sups[j].instance
  }

  ghost predicate Valid(v: View, heartbeat: nat) {
    && (forall key | key in v.tasks :: TaskValid(v, key))
    && (forall i | 0 <= i < |v.sups| :: SupValid(v, heartbeat, i))
    && (forall key | key in v.states :: EntryValid(v, key))
    && Numbered(v)
  }

  /** An assignment has at most one supervisor that is neither cancelled nor done. */
  lemma AtMostOneStands(v: View, heartbeat: nat, i: nat, j: nat)
    requires Valid(v, heartbeat) && i < |v.sups| && j < |v.sups| && v.sups[i].key == v.sups[j].key
    requires !v.sups[i].cancelled && !v.sups[i].phase.Finished? && !v.sups[j].cancelled && !v.sups[j].phase.Finished?
    ensures i == j
  {
    assert SupValid(v, heartbeat, i) && SupValid(v, heartbeat, j);
  }

  /** The current supervisor of an assignment is the one shown once it has announced
      itself, if instance numbers were taken in order. */
  lemma CurrentIsShown(v: View, heartbeat: nat, key: Assignment)
    requires Valid(v, heartbeat) && key in v.tasks
    ensures var c := v.tasks[key].sup;
            c < |v.sups| && (Announced(v.sups[c]) && InOrder(v, c) ==> ShownAs(v, c))
  {
    assert TaskValid(v, key);
  }

  /* One supervisor's steps. */

  /** Supervisor `i` becomes `s`, with a new state map. */
  function Moved(v: View, i: nat, s: Supervisor, states: States): View
    requires i < |v.sups|
  {
    v.(sups := v.sups[i := s], states := states,
       nextInstance := if v.sups[i].instance == s.instance then v.nextInstance else v.nextInstance + 1)
  }

  /** A step keeps who it is, and takes a number only once. */
  predicate SameSupervisor(a: Supervisor, b: Supervisor, next: nat) {
    && b.key == a.key && b.cancelled == a.cancelled
    && (b.instance == a.instance || (a.instance.None? && b.instance == Some(next)))
    && (a.phase.Finished? ==> b.phase.Finished?)
  }

  lemma OrderWas(v: View, i: nat, s: Supervisor, states: States, c: nat)
    requires i < |v.sups| && c < |v.sups| && c != i && SameSupervisor(v.sups[i], s, v.nextInstance)
    requires InOrder(Moved(v, i, s, states), c)
    ensures InOrder(v, c)
  {
    var w := Moved(v, i, s, states);
    forall j | 0 <= j < |v.sups| && j != c && v.sups[j].key == v.sups[c].key && v.sups[j].instance.Some?
      ensures v.sups[c].instance.Some? && v.sups[j].instance.value < v.sups[c].instance.value
    {
      assert w.sups[j].instance == v.sups[j].instance && w.sups[c] == v.sups[c];
    }
  }

  /** What a step of supervisor `i` must show to keep the invariant. */
  lemma MoveKeepsValid(v: View, heartbeat: nat, i: nat, s: Supervisor, states: States)
    requires Valid(v, heartbeat) && i < |v.sups| && SameSupervisor(v.sups[i], s, v.nextInstance)
    requires SupOk(s, heartbeat, Moved(v, i, s, states).nextInstance)
    requires forall key | key in states :: EntryValid(Moved(v, i, s, states), key)
    requires forall c | 0 <= c < |v.sups| && c != i && v.sups[c].key == s.key && InOrder(v, c) && ShownAs(v, c)
                        && InOrder(Moved(v, i, s, states), c) :: ShownAs(Moved(v, i, s, states), c)
    requires forall key | key != s.key :: (key in states <==> key in v.states)
               && (key in states ==> states[key] == v.states[key])
    requires !s.cancelled && Announced(s) && InOrder(Moved(v, i, s, states), i) ==> ShownAs(Moved(v, i, s, states), i)
    ensures Valid(Moved(v, i, s, states), heartbeat)
  {
    hide Delay, Writes;
    var w := Moved(v, i, s, states);
    assert SupValid(v, heartbeat, i);
    forall j | 0 <= j < |w.sups| ensures SupValid(w, heartbeat, j) {
      assert SupValid(v, heartbeat, j);
    }
    forall key | key in w.tasks ensures TaskValid(w, key) {
      assert TaskValid(v, key);
      var c := v.tasks[key].sup;
      if c != i && Announced(w.sups[c]) && InOrder(w, c) {
        OrderWas(v, i, s, states, c);
        assert ShownAs(w, c);
      }
    }
    forall a, b | 0 <= a < b < |w.sups| && w.sups[a].instance.Some?
      ensures w.sups[a].instance != w.sups[b].instance
    {
      assert SupValid(v, heartbeat, a) && SupValid(v, heartbeat, b);
    }
  }

  /** Entries written by others are still theirs. */
  lemma EntriesKept(v: View, heartbeat: nat, i: nat, s: Supervisor, states: States)
    requires Valid(v, heartbeat) && i < |v.sups| && SameSupervisor(v.sups[i], s, v.nextInstance)
    requires s.phase.Finished? ==> s.instance.Some? && states == Erase(v.states, s.key, s.instance.value)
    requires !s.phase.Finished? ==>
               states == v.states
               || (s.instance.Some? && exists x :: states == SetState(v.states, s.key, s.instance.value, x))
    ensures forall key | key in states :: EntryValid(Moved(v, i, s, states), key)
  {
    var w := Moved(v, i, s, states);
    forall key | key in states ensures EntryValid(w, key) {
      if key in v.states && states[key].0 == v.states[key].0 {
        assert EntryValid(v, key);
        var j :| 0 <= j < |v.sups| && Writes(v.sups[j], key, v.states[key].0);
        assert !(j == i && s.phase.Finished?);
        assert Writes(w.sups[j], key, states[key].0);
      } else {
        assert Writes(w.sups[i], key, states[key].0);
      }
    }
  }

  /** The first poll: take an instance number. */
  function Take(v: View, i: nat): View
    requires i < |v.sups|
  {
    if !v.sups[i].phase.Spawned? || v.sups[i].instance.Some? then v
    else Moved(v, i, v.sups[i].(phase := Ready, instance := Some(v.nextInstance)), v.states)
  }

  function Announce(v: View, i: nat): View
    requires i < |v.sups|
  {
    var s := v.sups[i];
    if !s.phase.Ready? || s.instance.None? then v
    else Moved(v, i, s.(phase := Running), SetState(v.states, s.key, s.instance.value, Working))
  }

  /** The body's run ends. A fence waits one heartbeat and starts the backoff anew; a
      plain failure doubles it. */
  function AfterRun(s: Supervisor, r: RunResult, heartbeat: nat): Supervisor {
    if s.cancelled || r.Clean? then s.(phase := Leaving)
    else if r.Fenced? then s.(phase := Waiting(heartbeat), backoff := 1, failures := 0)
    else
      var b := Min(s.backoff * 2, MAX_BACKOFF);
      s.(phase := Waiting(b), backoff := b, failures := s.failures + 1)
  }

  function EndRun(v: View, i: nat, r: RunResult, heartbeat: nat): View
    requires i < |v.sups|
  {
    var s := v.sups[i];
    if !s.phase.Running? || s.instance.None? then v
    else
      var t := AfterRun(s, r, heartbeat);
      Moved(v, i, t, if t.phase.Leaving? then v.states else SetState(v.states, s.key, s.instance.value, Backoff))
  }

  /** The wait ends: the timer fires, or the task was cancelled. */
  function Wake(v: View, i: nat, timer: bool): View
    requires i < |v.sups|
  {
    var s := v.sups[i];
    if !s.phase.Waiting? || (!timer && !s.cancelled) then v
    else Moved(v, i, s.(phase := if timer then Ready else Leaving), v.states)
  }

  function Exit(v: View, i: nat): View
    requires i < |v.sups|
  {
    var s := v.sups[i];
    if !s.phase.Leaving? || s.instance.None? then v
    else Moved(v, i, s.(phase := Finished), Erase(v.states, s.key, s.instance.value))
  }

  lemma {:induction false} DelayDoubles(k: nat)
    ensures Delay(k + 1) == Min(Delay(k) * 2, MAX_BACKOFF)
  {
  }

  /** Nothing a supervisor with a smaller number does hides the current one. */
  lemma OthersStayShown(v: View, i: nat, s: Supervisor, states: States)
    requires i < |v.sups| && SameSupervisor(v.sups[i], s, v.nextInstance)
    requires states == v.states || (s.instance.Some? && v.sups[i].instance.Some?
               && (states == Erase(v.states, s.key, s.instance.value)
                   || exists x :: states == SetState(v.states, s.key, s.instance.value, x)))
    ensures forall c | 0 <= c < |v.sups| && c != i && v.sups[c].key == s.key && InOrder(v, c) && ShownAs(v, c)
                       && InOrder(Moved(v, i, s, states), c) :: ShownAs(Moved(v, i, s, states), c)
    ensures forall key | key != s.key :: (key in states <==> key in v.states)
              && (key in states ==> states[key] == v.states[key])
  {
  }

  lemma TakeKeepsValid(v: View, heartbeat: nat, i: nat)
    requires Valid(v, heartbeat) && i < |v.sups|
    ensures Valid(Take(v, i), heartbeat)
  {
    if Take(v, i) != v {
      var s := v.sups[i].(phase := Ready, instance := Some(v.nextInstance));
      assert SupValid(v, heartbeat, i);
      EntriesKept(v, heartbeat, i, s, v.states);
      OthersStayShown(v, i, s, v.states);
      MoveKeepsValid(v, heartbeat, i, s, v.states);
    }
  }

  lemma AnnounceKeepsValid(v: View, heartbeat: nat, i: nat)
    requires Valid(v, heartbeat) && i < |v.sups|
    ensures Valid(Announce(v, i), heartbeat)
  {
    if Announce(v, i) != v {
      var s := v.sups[i].(phase := Running);
      var states := SetState(v.states, s.key, s.instance.value, Working);
      assert SupValid(v, heartbeat, i);
      EntriesKept(v, heartbeat, i, s, states);
      OthersStayShown(v, i, s, states);
      WriterIsShown(v, heartbeat, i, s, states, Working);
      MoveKeepsValid(v, heartbeat, i, s, states);
    }
  }

  /** After a write, a supervisor in order is shown. */
  lemma WriterIsShown(v: View, heartbeat: nat, i: nat, s: Supervisor, states: States, x: TaskState)
    requires Valid(v, heartbeat) && i < |v.sups| && SameSupervisor(v.sups[i], s, v.nextInstance)
    requires s.instance.Some? && s.instance == v.sups[i].instance
    requires states == SetState(v.states, s.key, s.instance.value, x)
    ensures InOrder(Moved(v, i, s, states), i) ==> ShownAs(Moved(v, i, s, states), i)
  {
    var w := Moved(v, i, s, states);
    if s.key in v.states {
      assert EntryValid(v, s.key);
      var j :| 0 <= j < |v.sups| && Writes(v.sups[j], s.key, v.states[s.key].0);
      assert j != i ==> w.sups[j] == v.sups[j];
    }
  }

  lemma AfterRunOk(s: Supervisor, r: RunResult, heartbeat: nat, next: nat)
    requires SupOk(s, heartbeat, next) && s.phase.Running?
    ensures var t := AfterRun(s, r, heartbeat);
            SupOk(t, heartbeat, next) && SameSupervisor(s, t, next) && t.instance == s.instance
            && (t.phase.Waiting? || t == s.(phase := Leaving))
  {
    DelayDoubles(s.failures);
  }

  lemma EndRunKeepsValid(v: View, heartbeat: nat, i: nat, r: RunResult)
    requires Valid(v, heartbeat) && i < |v.sups|
    ensures Valid(EndRun(v, i, r, heartbeat), heartbeat)
  {
    var w := EndRun(v, i, r, heartbeat);
    if w != v {
      var s := AfterRun(v.sups[i], r, heartbeat);
      assert SupValid(v, heartbeat, i);
      AfterRunOk(v.sups[i], r, heartbeat, v.nextInstance);
      hide Valid, InOrder, ShownAs, Delay, AfterRun;
      EntriesKept(v, heartbeat, i, s, w.states);
      OthersStayShown(v, i, s, w.states);
      if s.phase.Leaving? {
        LeaverIsShown(v, heartbeat, i, s);
      } else {
        WriterIsShown(v, heartbeat, i, s, w.states, Backoff);
      }
      MoveKeepsValid(v, heartbeat, i, s, w.states);
    }
  }

  /** A step that writes nothing leaves the current supervisor shown. */
  lemma LeaverIsShown(v: View, heartbeat: nat, i: nat, s: Supervisor)
    requires Valid(v, heartbeat) && i < |v.sups| && s == v.sups[i].(phase := Leaving) && Announced(v.sups[i])
    ensures !s.cancelled && InOrder(Moved(v, i, s, v.states), i) ==> ShownAs(Moved(v, i, s, v.states), i)
  {
    var w := Moved(v, i, s, v.states);
    if !s.cancelled && InOrder(w, i) {
      assert SupValid(v, heartbeat, i) && TaskValid(v, s.key);
      forall j | 0 <= j < |v.sups| && j != i && v.sups[j].key == v.sups[i].key && v.sups[j].instance.Some?
        ensures v.sups[i].instance.Some? && v.sups[j].instance.value < v.sups[i].instance.value
      {
        assert w.sups[j] == v.sups[j];
      }
    }
  }

  lemma WakeKeepsValid(v: View, heartbeat: nat, i: nat, timer: bool)
    requires Valid(v, heartbeat) && i < |v.sups|
    ensures Valid(Wake(v, i, timer), heartbeat)
  {
    var w := Wake(v, i, timer);
    if w != v {
      var s := w.sups[i];
      assert SupValid(v, heartbeat, i);
      EntriesKept(v, heartbeat, i, s, v.states);
      OthersStayShown(v, i, s, v.states);
      MoveKeepsValid(v, heartbeat, i, s, v.states);
    }
  }

  lemma ExitKeepsValid(v: View, heartbeat: nat, i: nat)
    requires Valid(v, heartbeat) && i < |v.sups|
    ensures Valid(Exit(v, i), heartbeat)
  {
    var w := Exit(v, i);
    if w != v {
      var s := w.sups[i];
      assert SupValid(v, heartbeat, i);
      EntriesKept(v, heartbeat, i, s, w.states);
      OthersStayShown(v, i, s, w.states);
      MoveKeepsValid(v, heartbeat, i, s, w.states);
    }
  }

  /* Reconciling. */

  /** Stop the task of `key`. */
  function StopTask(v: View, key: Assignment): View {
    if key !in v.tasks || v.tasks[key].sup >= |v.sups| then v
    else
      var i := v.tasks[key].sup;
      v.(tasks := v.tasks - {key}, sups := v.sups[i := v.sups[i].(cancelled := true)])
  }

  /** Forget the task of `key` if its supervisor has exited. */
  function ReapTask(v: View, key: Assignment): View {
    if key in v.tasks && v.tasks[key].sup < |v.sups| && v.sups[v.tasks[key].sup].phase.Finished?
    then v.(tasks := v.tasks - {key}) else v
  }

  function StartTask(v: View, key: Assignment, fingerprint: nat): View {
    v.(sups := v.sups + [Supervisor(key, false, Spawned, None, 1, 0)],
       tasks := v.tasks[key := RunningTask(|v.sups|, fingerprint)])
  }

  /** The same supervisors with the same numbers and phases, and maybe more that
      have no number yet; the same state map. */
  ghost predicate SameShow(a: View, b: View) {
    && a.states == b.states && a.nextInstance == b.nextInstance && |a.sups| <= |b.sups|
    && (forall i | 0 <= i < |a.sups| :: b.sups[i] == a.sups[i].(cancelled := b.sups[i].cancelled))
    && forall i | |a.sups| <= i < |b.sups| :: b.sups[i].instance.None? && b.sups[i].phase.Spawned?
  }

  lemma SameShowKeeps(a: View, b: View, heartbeat: nat)
    requires Valid(a, heartbeat) && SameShow(a, b)
    ensures forall key | key in b.states :: EntryValid(b, key)
    ensures Numbered(b)
    ensures forall c | 0 <= c < |a.sups| && InOrder(b, c) :: InOrder(a, c) && (ShownAs(a, c) ==> ShownAs(b, c))
  {
    forall key | key in b.states ensures EntryValid(b, key) {
      assert EntryValid(a, key);
      var j :| 0 <= j < |a.sups| && Writes(a.sups[j], key, a.states[key].0);
      assert Writes(b.sups[j], key, b.states[key].0);
    }
    forall c | 0 <= c < |a.sups| && InOrder(b, c) ensures InOrder(a, c) {
      forall i | 0 <= i < |a.sups| && i != c && a.sups[i].key == a.sups[c].key && a.sups[i].instance.Some?
        ensures a.sups[c].instance.Some? && a.sups[i].instance.value < a.sups[c].instance.value
      {
        assert b.sups[i].instance == a.sups[i].instance;
      }
    }
  }

  lemma StopKeepsValid(v: View, heartbeat: nat, key: Assignment)
    requires Valid(v, heartbeat)
    ensures Valid(StopTask(v, key), heartbeat) && SameShow(v, StopTask(v, key))
  {
    var w := StopTask(v, key);
    SameShowKeeps(v, w, heartbeat);
    forall i | 0 <= i < |w.sups| ensures SupValid(w, heartbeat, i) { assert SupValid(v, heartbeat, i); }
    if key in v.tasks { assert TaskValid(v, key); }
    forall k | k in w.tasks ensures TaskValid(w, k) { assert TaskValid(v, k); }
  }

  lemma ReapKeepsValid(v: View, heartbeat: nat, key: Assignment)
    requires Valid(v, heartbeat)
    ensures Valid(ReapTask(v, key), heartbeat) && SameShow(v, ReapTask(v, key))
  {
    var w := ReapTask(v, key);
    SameShowKeeps(v, w, heartbeat);
    if key in v.tasks { assert TaskValid(v, key); }
    forall i | 0 <= i < |w.sups| ensures SupValid(w, heartbeat, i) { assert SupValid(v, heartbeat, i); }
    forall k | k in w.tasks ensures TaskValid(w, k) { assert TaskValid(v, k); }
  }

  lemma StartKeepsValid(v: View, heartbeat: nat, key: Assignment, fingerprint: nat)
    requires Valid(v, heartbeat) && key !in v.tasks
    ensures Valid(StartTask(v, key, fingerprint), heartbeat) && SameShow(v, StartTask(v, key, fingerprint))
  {
    var w := StartTask(v, key, fingerprint);
    SameShowKeeps(v, w, heartbeat);
    forall i | 0 <= i < |w.sups| ensures SupValid(w, heartbeat, i) {
      if i < |v.sups| { assert SupValid(v, heartbeat, i); }
    }
    forall k | k in w.tasks ensures TaskValid(w, k) {
      if k != key { assert TaskValid(v, k); }
    }
  }

  /* Whole runs. */

  /** Every kind of step: one supervisor's, or one of reconciling. */
  datatype Move =
    | FirstPoll(i: nat)
    | Goes(i: nat)
    | Ends(i: nat, r: RunResult)
    | Wakes(i: nat, timer: bool)
    | Leaves(i: nat)
    | Stop(key: Assignment)
    | Reap(key: Assignment)
    | Spawn(key: Assignment, fingerprint: nat)

  function Step(v: View, heartbeat: nat, m: Move): (w: View)
    ensures |w.sups| >= |v.sups|
  {
    match m
    case FirstPoll(i) => if i < |v.sups| then Take(v, i) else v
    case Goes(i) => if i < |v.sups| then Announce(v, i) else v
    case Ends(i, r) => if i < |v.sups| then EndRun(v, i, r, heartbeat) else v
    case Wakes(i, timer) => if i < |v.sups| then Wake(v, i, timer) else v
    case Leaves(i) => if i < |v.sups| then Exit(v, i) else v
    case Stop(key) => StopTask(v, key)
    case Reap(key) => ReapTask(v, key)
    case Spawn(key, fingerprint) => if key in v.tasks then v else StartTask(v, key, fingerprint)
  }

  function RunMoves(v: View, heartbeat: nat, moves: seq<Move>): (w: View)
    ensures |w.sups| >= |v.sups|
    decreases |moves|
  {
    if moves == [] then v else RunMoves(Step(v, heartbeat, moves[0]), heartbeat, moves[1..])
  }

  lemma StepKeepsValid(v: View, heartbeat: nat, m: Move)
    requires Valid(v, heartbeat)
    ensures Valid(Step(v, heartbeat, m), heartbeat)
  {
    hide Valid, Take, Announce, EndRun, Wake, Exit, StopTask, ReapTask, StartTask;
    match m
    case FirstPoll(i) => if i < |v.sups| { TakeKeepsValid(v, heartbeat, i); }
    case Goes(i) => if i < |v.sups| { AnnounceKeepsValid(v, heartbeat, i); }
    case Ends(i, r) => if i < |v.sups| { EndRunKeepsValid(v, heartbeat, i, r); }
    case Wakes(i, timer) => if i < |v.sups| { WakeKeepsValid(v, heartbeat, i, timer); }
    case Leaves(i) => if i < |v.sups| { ExitKeepsValid(v, heartbeat, i); }
    case Stop(key) => StopKeepsValid(v, heartbeat, key);
    case Reap(key) => ReapKeepsValid(v, heartbeat, key);
    case Spawn(key, fingerprint) => if key !in v.tasks { StartKeepsValid(v, heartbeat, key, fingerprint); }
  }

  lemma {:induction false} RunKeepsValid(v: View, heartbeat: nat, moves: seq<Move>)
    requires Valid(v, heartbeat)
    ensures Valid(RunMoves(v, heartbeat, moves), heartbeat)
    decreases |moves|
  {
    if moves != [] {
      hide Valid, Step;
      StepKeepsValid(v, heartbeat, moves[0]);
      RunKeepsValid(Step(v, heartbeat, moves[0]), heartbeat, moves[1..]);
    }
  }

  /** In every step of every run, an entry changes only at the hands of a supervisor of
      its key whose number is no smaller than the entry's. */
  lemma OlderNeverDisturbs(v: View, heartbeat: nat, m: Move, key: Assignment)
    requires Valid(v, heartbeat) && key in v.states
    ensures var w := Step(v, heartbeat, m);
            (key in w.states && w.states[key] == v.states[key])
            || ((m.Goes? || m.Ends? || m.Leaves?) && m.i < |v.sups| && v.sups[m.i].key == key
                && v.sups[m.i].instance.Some? && v.states[key].0 <= v.sups[m.i].instance.value)
  {
  }

  /** Supervisor `c` of `key` is current. */
  predicate Current(v: View, key: Assignment, c: nat) {
    key in v.tasks && v.tasks[key].sup == c && c < |v.sups| && v.sups[c].key == key
  }

  /** Another supervisor of the key that can still take the entry over: one that has yet
      to take its number, or that will announce itself again with a larger one. */
  predicate Threatens(v: View, key: Assignment, c: nat, i: nat)
    requires c < |v.sups|
  {
    && i < |v.sups| && i != c && v.sups[i].key == key
    && (v.sups[i].phase.Spawned?
        || ((v.sups[i].phase.Ready? || v.sups[i].phase.Waiting?) && !Below(v.sups[i], v.sups[c])))
  }

  predicate Below(a: Supervisor, b: Supervisor) {
    a.instance.Some? && b.instance.Some? && a.instance.value < b.instance.value
  }

  predicate Unthreatened(v: View, key: Assignment, c: nat)
    requires c < |v.sups|
  {
    forall i | 0 <= i < |v.sups| :: !Threatens(v, key, c, i)
  }

  /** The run does not stop or reap the key's task. */
  predicate StaysCurrent(moves: seq<Move>, key: Assignment) {
    forall m | m in moves :: m != Stop(key) && m != Reap(key)
  }

  /** The current supervisor is shown until it exits, and nobody can change that. */
  ghost predicate Safe(v: View, heartbeat: nat, key: Assignment, c: nat) {
    && Valid(v, heartbeat) && Current(v, key, c) && v.sups[c].instance.Some? && Unthreatened(v, key, c)
    && (v.sups[c].phase.Finished? || ShownAs(v, c))
  }

  /** What the steps of one supervisor of another key, or of a supervisor that cannot
      take the entry over, leave as it is. */
  ghost predicate KeepsShown(v: View, w: View, key: Assignment, c: nat)
    requires Current(v, key, c)
  {
    && Current(w, key, c) && w.sups[c].instance == v.sups[c].instance
    && (v.sups[c].phase.Finished? ==> w.sups[c].phase.Finished?)
    && (!w.sups[c].phase.Finished? && ShownAs(v, c) ==> ShownAs(w, c))
    && (Unthreatened(v, key, c) ==> Unthreatened(w, key, c))
  }

  /** One supervisor's step. Everyone but the current one is cancelled, so a run of
      theirs that ends writes nothing. */
  lemma MoveKeepsShown(v: View, heartbeat: nat, i: nat, s: Supervisor, states: States, key: Assignment, c: nat)
    requires Valid(v, heartbeat) && Current(v, key, c) && v.sups[c].instance.Some? && i < |v.sups|
    requires !Threatens(v, key, c, i) && SameSupervisor(v.sups[i], s, v.nextInstance) && !s.phase.Spawned?
    requires s.instance.Some? && s.instance == v.sups[i].instance
    requires i != c && s.key == key ==>
               && (s.phase.Ready? || s.phase.Waiting? ==> v.sups[i].phase.Waiting? && s.phase.Ready?)
               && (states == v.states || states == Erase(v.states, key, s.instance.value)
                   || (v.sups[i].phase.Ready? && exists x :: states == SetState(v.states, key, s.instance.value, x)))
    requires i == c ==>
               states == v.states || s.phase.Finished?
               || exists x :: states == SetState(v.states, key, s.instance.value, x)
    requires s.key != key ==> (key in states <==> key in v.states) && (key in states ==> states[key] == v.states[key])
    ensures KeepsShown(v, Moved(v, i, s, states), key, c)
  {
    var w := Moved(v, i, s, states);
    assert SupValid(v, heartbeat, c);
    if Unthreatened(v, key, c) {
      forall j | 0 <= j < |w.sups| ensures !Threatens(w, key, c, j) {
        assert !Threatens(v, key, c, j);
      }
    }
  }

  lemma NobodyElseStands(v: View, heartbeat: nat, key: Assignment, c: nat, i: nat)
    requires Valid(v, heartbeat) && Current(v, key, c) && i < |v.sups| && i != c && v.sups[i].key == key
    ensures v.sups[i].cancelled || v.sups[i].phase.Finished?
    ensures v.sups[i].phase.Spawned? <==> v.sups[i].instance.None?
  {
    assert SupValid(v, heartbeat, i);
  }

  lemma TakeKeepsShown(v: View, heartbeat: nat, i: nat, key: Assignment, c: nat)
    requires Valid(v, heartbeat) && Current(v, key, c) && v.sups[c].instance.Some? && i < |v.sups|
    requires !Threatens(v, key, c, i)
    ensures KeepsShown(v, Take(v, i), key, c)
  {
    assert SupValid(v, heartbeat, c);
    var w := Take(v, i);
    if Unthreatened(v, key, c) {
      forall j | 0 <= j < |w.sups| ensures !Threatens(w, key, c, j) {
        assert !Threatens(v, key, c, j);
      }
    }
  }

  lemma AnnounceKeepsShown(v: View, heartbeat: nat, i: nat, key: Assignment, c: nat)
    requires Valid(v, heartbeat) && Current(v, key, c) && v.sups[c].instance.Some? && i < |v.sups|
    requires !Threatens(v, key, c, i)
    ensures KeepsShown(v, Announce(v, i), key, c)
  {
    var w := Announce(v, i);
    if w != v {
      var s := v.sups[i];
      assert w.states == SetState(v.states, s.key, s.instance.value, Working);
      MoveKeepsShown(v, heartbeat, i, w.sups[i], w.states, key, c);
    }
  }

  lemma EndRunKeepsShown(v: View, heartbeat: nat, i: nat, r: RunResult, key: Assignment, c: nat)
    requires Valid(v, heartbeat) && Current(v, key, c) && v.sups[c].instance.Some? && i < |v.sups|
    requires !Threatens(v, key, c, i)
    ensures KeepsShown(v, EndRun(v, i, r, heartbeat), key, c)
  {
    var w := EndRun(v, i, r, heartbeat);
    if w != v {
      var s := v.sups[i];
      assert w.sups[i] == AfterRun(s, r, heartbeat);
      assert w.states == v.states || w.states == SetState(v.states, s.key, s.instance.value, Backoff);
      if i != c && s.key == key {
        NobodyElseStands(v, heartbeat, key, c, i);
      }
      MoveKeepsShown(v, heartbeat, i, w.sups[i], w.states, key, c);
    }
  }

  lemma WakeKeepsShown(v: View, heartbeat: nat, i: nat, timer: bool, key: Assignment, c: nat)
    requires Valid(v, heartbeat) && Current(v, key, c) && v.sups[c].instance.Some? && i < |v.sups|
    requires !Threatens(v, key, c, i)
    ensures KeepsShown(v, Wake(v, i, timer), key, c)
  {
    var w := Wake(v, i, timer);
    if w != v {
      assert SupValid(v, heartbeat, i);
      MoveKeepsShown(v, heartbeat, i, w.sups[i], w.states, key, c);
    }
  }

  lemma ExitKeepsShown(v: View, heartbeat: nat, i: nat, key: Assignment, c: nat)
    requires Valid(v, heartbeat) && Current(v, key, c) && v.sups[c].instance.Some? && i < |v.sups|
    requires !Threatens(v, key, c, i)
    ensures KeepsShown(v, Exit(v, i), key, c)
  {
    var w := Exit(v, i);
    if w != v {
      assert w.states == Erase(v.states, v.sups[i].key, v.sups[i].instance.value);
      MoveKeepsShown(v, heartbeat, i, w.sups[i], w.states, key, c);
    }
  }

  lemma ReconcileKeepsShown(v: View, heartbeat: nat, m: Move, key: Assignment, c: nat)
    requires Current(v, key, c) && (m.Stop? && m.key in v.tasks ==> v.tasks[m.key].sup < |v.sups|)
    requires (m.Stop? || m.Reap? || m.Spawn?) && m != Stop(key) && m != Reap(key)
    ensures KeepsShown(v, Step(v, heartbeat, m), key, c)
  {
    var w := Step(v, heartbeat, m);
    if Unthreatened(v, key, c) {
      forall j | 0 <= j < |w.sups| ensures !Threatens(w, key, c, j) {
        assert j < |v.sups| ==> !Threatens(v, key, c, j);
      }
    }
  }

  lemma StepSafe(v: View, heartbeat: nat, m: Move, key: Assignment, c: nat)
    requires Safe(v, heartbeat, key, c) && m != Stop(key) && m != Reap(key)
    ensures Safe(Step(v, heartbeat, m), heartbeat, key, c)
  {
    StepKeepsValid(v, heartbeat, m);
    if m.Stop? || m.Reap? || m.Spawn? {
      if m.key in v.tasks { TaskBound(v, heartbeat, m.key); }
      ReconcileKeepsShown(v, heartbeat, m, key, c);
    } else if m.i < |v.sups| {
      assert !Threatens(v, key, c, m.i);
      hide Valid, Unthreatened, Threatens, Take, Announce, EndRun, Wake, Exit;
      match m
      case FirstPoll(i) => TakeKeepsShown(v, heartbeat, i, key, c);
      case Goes(i) => AnnounceKeepsShown(v, heartbeat, i, key, c);
      case Ends(i, r) => EndRunKeepsShown(v, heartbeat, i, r, key, c);
      case Wakes(i, timer) => WakeKeepsShown(v, heartbeat, i, timer, key, c);
      case Leaves(i) => ExitKeepsShown(v, heartbeat, i, key, c);
    }
  }

  lemma {:induction false} RunSafe(v: View, heartbeat: nat, moves: seq<Move>, key: Assignment, c: nat)
    requires Safe(v, heartbeat, key, c) && StaysCurrent(moves, key)
    ensures Safe(RunMoves(v, heartbeat, moves), heartbeat, key, c)
    decreases |moves|
  {
    hide Safe, Step;
    if moves != [] {
      assert moves[0] in moves;
      StepSafe(v, heartbeat, moves[0], key, c);
      assert forall m | m in moves[1..] :: m in moves;
      RunSafe(Step(v, heartbeat, moves[0]), heartbeat, moves[1..], key, c);
    }
  }

  /** Shown whenever it has announced itself, through every run that keeps it current. */
  ghost predicate ShownForGood(v: View, heartbeat: nat, key: Assignment, c: nat)
    requires c < |v.sups|
  {
    forall moves | StaysCurrent(moves, key) ::
      var w := RunMoves(v, heartbeat, moves); Announced(w.sups[c]) ==> ShownAs(w, c)
  }

  /** A current supervisor that has announced itself is shown for good exactly when it
      is shown now, no other supervisor of its key has yet to be polled for the first
      time, and none with a larger number will announce itself again. */
  lemma ShownForGoodExactly(v: View, heartbeat: nat, key: Assignment, c: nat)
    requires Valid(v, heartbeat) && Current(v, key, c) && Announced(v.sups[c])
    ensures ShownForGood(v, heartbeat, key, c) <==> ShownAs(v, c) && Unthreatened(v, key, c)
  {
    assert SupValid(v, heartbeat, c);
    if ShownAs(v, c) && Unthreatened(v, key, c) {
      forall moves | StaysCurrent(moves, key)
        ensures var w := RunMoves(v, heartbeat, moves); Announced(w.sups[c]) ==> ShownAs(w, c)
      {
        RunSafe(v, heartbeat, moves, key, c);
      }
    } else if !ShownAs(v, c) {
      assert StaysCurrent([], key) && RunMoves(v, heartbeat, []) == v;
    } else {
      var i :| 0 <= i < |v.sups| && Threatens(v, key, c, i);
      var moves := ThreatHides(v, heartbeat, key, c, i);
    }
  }

  /** Whoever threatens the entry can take it. */
  lemma ThreatHides(v: View, heartbeat: nat, key: Assignment, c: nat, i: nat) returns (moves: seq<Move>)
    requires Valid(v, heartbeat) && Current(v, key, c) && Announced(v.sups[c]) && ShownAs(v, c)
    requires Threatens(v, key, c, i)
    ensures StaysCurrent(moves, key)
    ensures var w := RunMoves(v, heartbeat, moves); Announced(w.sups[c]) && !ShownAs(w, c)
  {
    assert SupValid(v, heartbeat, i) && SupValid(v, heartbeat, c);
    if v.sups[i].instance.Some? { NumbersDiffer(v, i, c); }
    hide Valid, Delay, InOrder;
    if v.sups[i].phase.Ready? {
      moves := [Goes(i)];
      RunOne(v, heartbeat, Goes(i));
      GoesHides(v, c, i);
    } else if v.sups[i].phase.Spawned? {
      moves := [FirstPoll(i), Goes(i)];
      RunTwo(v, heartbeat, FirstPoll(i), Goes(i));
      GoesHides(Take(v, i), c, i);
    } else {
      moves := [Wakes(i, true), Goes(i)];
      RunTwo(v, heartbeat, Wakes(i, true), Goes(i));
      GoesHides(Wake(v, i, true), c, i);
    }
  }

  lemma NumbersDiffer(v: View, i: nat, j: nat)
    requires Numbered(v) && i < |v.sups| && j < |v.sups| && i != j && v.sups[i].instance.Some?
    ensures v.sups[i].instance != v.sups[j].instance
  {
    if j < i && v.sups[j].instance.Some? {
      assert v.sups[j].instance != v.sups[i].instance;
    }
  }

  /** An announcement with a larger number takes the entry. */
  lemma GoesHides(v: View, c: nat, i: nat)
    requires c < |v.sups| && i < |v.sups| && i != c && v.sups[i].key == v.sups[c].key && v.sups[i].phase.Ready?
    requires Announced(v.sups[c]) && ShownAs(v, c) && Below(v.sups[c], v.sups[i])
    ensures Announced(Announce(v, i).sups[c]) && !ShownAs(Announce(v, i), c)
  {
  }

  lemma RunOne(v: View, heartbeat: nat, m: Move)
    ensures RunMoves(v, heartbeat, [m]) == Step(v, heartbeat, m)
  {
    hide Step;
    assert [m][1..] == [];
  }

  lemma RunTwo(v: View, heartbeat: nat, m: Move, n: Move)
    ensures RunMoves(v, heartbeat, [m, n]) == Step(Step(v, heartbeat, m), heartbeat, n)
  {
    hide Step;
    var x := Step(v, heartbeat, m);
    assert [m, n][1..] == [n] && [n][1..] == [];
    assert RunMoves(x, heartbeat, [n]) == RunMoves(Step(x, heartbeat, n), heartbeat, []);
  }

  /** The tasks that survive reconciling: still owned with the same fingerprint, and
      their supervisor has not exited. */
  predicate Survives(v: View, owned: map<Assignment, nat>, key: Assignment) {
    && key in v.tasks && key in owned && v.tasks[key].fingerprint == owned[key]
    && v.tasks[key].sup < |v.sups| && !v.sups[v.tasks[key].sup].phase.Finished?
  }

  /** The owned assignments that have no supervisor worth keeping. */
  function Missing(v: View, owned: map<Assignment, nat>): set<Assignment> {
    set key | key in owned && !Survives(v, owned, key)
  }

  predicate Unfinished(v: View, key: Assignment) {
    key in v.tasks && v.tasks[key].sup < |v.sups| && !v.sups[v.tasks[key].sup].phase.Finished?
  }

  lemma TaskBound(v: View, heartbeat: nat, key: Assignment)
    requires Valid(v, heartbeat) && key in v.tasks
    ensures v.tasks[key].sup < |v.sups|
  {
    assert TaskValid(v, key);
  }

  lemma OnlyCurrentStand(v: View, heartbeat: nat)
    requires Valid(v, heartbeat)
    ensures forall i | 0 <= i < |v.sups| && !v.sups[i].cancelled && !v.sups[i].phase.Finished? ::
              v.sups[i].key in v.tasks && v.tasks[v.sups[i].key].sup == i
  {
    forall i | 0 <= i < |v.sups| && !v.sups[i].cancelled && !v.sups[i].phase.Finished?
      ensures v.sups[i].key in v.tasks && v.tasks[v.sups[i].key].sup == i
    {
      assert SupValid(v, heartbeat, i);
    }
  }

  lemma SameShowRefl(v: View)
    ensures SameShow(v, v)
  {
  }

  lemma SameShowTrans(a: View, b: View, c: View)
    requires SameShow(a, b) && SameShow(b, c)
    ensures SameShow(a, c)
  {
    forall i | 0 <= i < |a.sups| ensures c.sups[i] == a.sups[i].(cancelled := c.sups[i].cancelled) {
      assert b.sups[i] == a.sups[i].(cancelled := b.sups[i].cancelled);
    }
    forall i | |a.sups| <= i < |c.sups| ensures c.sups[i].instance.None? && c.sups[i].phase.Spawned? {
      if i < |b.sups| {
        assert c.sups[i] == b.sups[i].(cancelled := c.sups[i].cancelled);
      }
    }
  }

  /** Of the owned assignments all but `rest` have been seen to, `made` by starting. */
  ghost predicate Starting(was: View, v: View, owned: map<Assignment, nat>, rest: set<Assignment>,
                           made: set<Assignment>) {
    && rest <= owned.Keys
    && (forall key :: key in v.tasks <==> key in was.tasks || (key in owned && key !in rest))
    && (forall key :: key in made <==> key in owned && key !in rest && key !in was.tasks)
    && |v.sups| == |was.sups| + |made|
    && (forall key | key in was.tasks :: v.tasks[key] == was.tasks[key])
    && forall key | key in made :: v.tasks[key].fingerprint == owned[key] && |was.sups| <= v.tasks[key].sup
  }

  lemma StartingNow(was: View, owned: map<Assignment, nat>)
    requires was.tasks.Keys <= owned.Keys
    ensures Starting(was, was, owned, owned.Keys, {})
  {
  }

  lemma StartingSkips(was: View, v: View, owned: map<Assignment, nat>, rest: set<Assignment>,
                      made: set<Assignment>, key: Assignment)
    requires Starting(was, v, owned, rest, made) && key in rest && key in v.tasks
    ensures Starting(was, v, owned, rest - {key}, made)
  {
  }

  lemma StartingMore(was: View, v: View, owned: map<Assignment, nat>, rest: set<Assignment>,
                     made: set<Assignment>, key: Assignment)
    requires Starting(was, v, owned, rest, made) && key in rest && key !in v.tasks
    ensures key in owned && Starting(was, StartTask(v, key, owned[key]), owned, rest - {key}, made + {key})
  {
    assert key !in made;
  }

  lemma StartingEnds(was: View, v: View, owned: map<Assignment, nat>, made: set<Assignment>)
    requires Starting(was, v, owned, {}, made) && was.tasks.Keys <= owned.Keys
    ensures v.tasks.Keys == owned.Keys && made == owned.Keys - was.tasks.Keys && |v.sups| == |was.sups| + |made|
    ensures forall key | key in was.tasks :: v.tasks[key] == was.tasks[key]
    ensures forall key | key in made :: v.tasks[key].fingerprint == owned[key] && |was.sups| <= v.tasks[key].sup
  {
    assert made == owned.Keys - was.tasks.Keys;
  }

  /** After stopping and reaping, exactly the survivors are left. */
  lemma SurvivorsAre(was: View, stopped: View, reaped: View, heartbeat: nat, owned: map<Assignment, nat>)
    requires Valid(was, heartbeat) && SameShow(was, stopped) && |stopped.sups| == |was.sups|
    requires stopped.tasks ==
             map key | key in was.tasks && key in owned && owned[key] == was.tasks[key].fingerprint :: was.tasks[key]
    requires forall key :: key in reaped.tasks <==> key in stopped.tasks && Unfinished(stopped, key)
    requires forall key | key in reaped.tasks :: reaped.tasks[key] == stopped.tasks[key]
    ensures forall key :: key in reaped.tasks <==> Survives(was, owned, key)
    ensures forall key | key in reaped.tasks :: reaped.tasks[key] == was.tasks[key]
    ensures owned.Keys - reaped.tasks.Keys == Missing(was, owned)
  {
    forall key ensures key in reaped.tasks <==> Survives(was, owned, key) {
      if key in was.tasks && was.tasks[key].sup < |was.sups| {
        assert stopped.sups[was.tasks[key].sup].phase == was.sups[was.tasks[key].sup].phase;
      }
    }
  }

  class NodeTasks {
    const heartbeat: nat
    var tasks: map<Assignment, RunningTask>
    var sups: seq<Supervisor>
    var states: States
    var nextInstance: nat

    function Now(): View
      reads this
    {
      View(tasks, sups, states, nextInstance)
    }

    ghost predicate Ok()
      reads this
    {
      Valid(Now(), heartbeat)
    }

    constructor (heartbeat: nat)
      ensures Ok() && Now() == View(map[], [], map[], 0) && this.heartbeat == heartbeat
    {
      this.heartbeat := heartbeat;
      tasks, sups, states, nextInstance := map[], [], map[], 0;
    }

    method Become(v: View)
      modifies this
      ensures Now() == v
    {
      tasks, sups, states, nextInstance := v.tasks, v.sups, v.states, v.nextInstance;
    }

    /** `reconcile`. */
    method Reconcile(owned: map<Assignment, nat>)
      requires Ok()
      modifies this
      ensures Ok() && SameShow(old(Now()), Now())
      ensures tasks.Keys == owned.Keys && forall key | key in owned :: tasks[key].fingerprint == owned[key]
      ensures forall key | key in owned && Survives(old(Now()), owned, key) :: tasks[key] == old(tasks)[key]
      ensures forall key | key in owned && !Survives(old(Now()), owned, key) :: tasks[key].sup >= |old(sups)|
      ensures |sups| == |old(sups)| + |Missing(old(Now()), owned)|
      ensures forall i | 0 <= i < |sups| && !sups[i].cancelled && !sups[i].phase.Finished? ::
                sups[i].key in owned && tasks[sups[i].key].sup == i
    {
      hide Valid, SameShow;
      ghost var was := Now();
      StopUnowned(owned);
      ghost var stopped := Now();
      ReapFinished();
      ghost var reaped := Now();
      SurvivorsAre(was, stopped, reaped, heartbeat, owned);
      StartMissing(owned);
      SameShowTrans(was, stopped, reaped);
      SameShowTrans(was, reaped, Now());
      OnlyCurrentStand(Now(), heartbeat);
    }

    /** Start a supervisor for every owned assignment that has none. */
    method StartMissing(owned: map<Assignment, nat>)
      requires Ok() && tasks.Keys <= owned.Keys
      modifies this
      ensures Ok() && SameShow(old(Now()), Now()) && tasks.Keys == owned.Keys
      ensures forall key | key in old(tasks) :: tasks[key] == old(tasks)[key]
      ensures forall key | key in owned && key !in old(tasks) ::
                tasks[key].fingerprint == owned[key] && tasks[key].sup >= |old(sups)|
      ensures |sups| == |old(sups)| + |owned.Keys - old(tasks).Keys|
    {
      hide Valid, SameShow, StartTask, Starting;
      ghost var was := Now();
      SameShowRefl(was);
      var v := Now();
      var rest := owned.Keys;
      ghost var made: set<Assignment> := {};
      StartingNow(was, owned);
      while rest != {}
        invariant Valid(v, heartbeat) && SameShow(was, v) && Starting(was, v, owned, rest, made)
      {
        var key :| key in rest;
        if key in v.tasks {
          StartingSkips(was, v, owned, rest, made, key);
          rest := rest - {key};
          continue;
        }
        StartingMore(was, v, owned, rest, made, key);
        rest := rest - {key};
        StartKeepsValid(v, heartbeat, key, owned[key]);
        SameShowTrans(was, v, StartTask(v, key, owned[key]));
        v := StartTask(v, key, owned[key]);
        made := made + {key};
      }
      StartingEnds(was, v, owned, made);
      Become(v);
    }

    /** Stop tasks no longer owned or whose configuration changed. */
    method StopUnowned(owned: map<Assignment, nat>)
      requires Ok()
      modifies this
      ensures Ok() && SameShow(old(Now()), Now()) && |sups| == |old(sups)|
      ensures tasks ==
              map key | key in old(tasks) && key in owned && owned[key] == old(tasks)[key].fingerprint ::
                old(tasks)[key]
    {
      hide Valid, SameShow;
      ghost var was := Now();
      SameShowRefl(was);
      var stop := set key | key in tasks && (key !in owned || owned[key] != tasks[key].fingerprint);
      var rest := stop;
      while rest != {}
        invariant Ok() && SameShow(was, Now()) && rest <= stop && |sups| == |was.sups|
        invariant forall key :: key in tasks <==> key in was.tasks && (key in rest || key !in stop)
        invariant forall key | key in tasks :: tasks[key] == was.tasks[key]
      {
        var key :| key in rest;
        ghost var before := Now();
        TaskBound(Now(), heartbeat, key);
        StopKeepsValid(Now(), heartbeat, key);
        Become(StopTask(Now(), key));
        SameShowTrans(was, before, Now());
        rest := rest - {key};
      }
    }

    /** Forget tasks that exited on their own. */
    method ReapFinished()
      requires Ok()
      modifies this
      ensures Ok() && SameShow(old(Now()), Now()) && sups == old(sups)
      ensures forall key :: key in tasks <==> key in old(tasks) && Unfinished(old(Now()), key)
      ensures forall key | key in tasks :: tasks[key] == old(tasks)[key]
    {
      hide Valid, SameShow;
      ghost var was := Now();
      SameShowRefl(was);
      var rest := tasks.Keys;
      while rest != {}
        invariant Ok() && SameShow(was, Now()) && sups == was.sups && rest <= was.tasks.Keys && rest <= tasks.Keys
        invariant forall key :: key in tasks <==> key in was.tasks && (key in rest || Unfinished(was, key))
        invariant forall key | key in tasks :: tasks[key] == was.tasks[key]
      {
        var key :| key in rest;
        ghost var before := Now();
        TaskBound(Now(), heartbeat, key);
        ReapKeepsValid(Now(), heartbeat, key);
        rest := rest - {key};
        Become(ReapTask(Now(), key));
        SameShowTrans(was, before, Now());
      }
    }

    /* The supervisors' steps, on the shared state. */

    method FirstPoll(i: nat)
      requires Ok() && i < |sups|
      modifies this
      ensures Ok() && Now() == Take(old(Now()), i)
    {
      TakeKeepsValid(Now(), heartbeat, i);
      Become(Take(Now(), i));
    }

    method Start(i: nat)
      requires Ok() && i < |sups|
      modifies this
      ensures Ok() && Now() == Announce(old(Now()), i)
    {
      AnnounceKeepsValid(Now(), heartbeat, i);
      Become(Announce(Now(), i));
    }

    method RunEnds(i: nat, r: RunResult)
      requires Ok() && i < |sups|
      modifies this
      ensures Ok() && Now() == EndRun(old(Now()), i, r, heartbeat)
    {
      EndRunKeepsValid(Now(), heartbeat, i, r);
      Become(EndRun(Now(), i, r, heartbeat));
    }

    method Leave(i: nat)
      requires Ok() && i < |sups|
      modifies this
      ensures Ok() && Now() == Exit(old(Now()), i)
    {
      ExitKeepsValid(Now(), heartbeat, i);
      Become(Exit(Now(), i));
    }
  }

  /** The delay in force: after `k` plain failures since the start or the last fence
      it is 2^k seconds, at most 60; right after a fence, one heartbeat. */
  lemma DelayInForce(v: View, heartbeat: nat, i: nat)
    requires Valid(v, heartbeat) && i < |v.sups| && v.sups[i].phase.Waiting?
    ensures v.sups[i].phase.delay ==
            if v.sups[i].failures == 0 then heartbeat else Min(Pow2(v.sups[i].failures), 60)
  {
    assert SupValid(v, heartbeat, i);
  }

  const NO_TASKS := View(map[], [], map[], 0)

  /** The end of a run of supervisor `i` counts while it runs and has not been cancelled. */
  predicate TakesEffect(v: View, m: Move, i: nat) {
    m.Ends? && m.i == i && i < |v.sups| && v.sups[i].phase.Running? && !v.sups[i].cancelled
  }

  /** What has happened to a supervisor: its plain failures since its start or its last
      fence, and how its last run ended. */
  datatype Tally = Tally(failures: nat, last: Option<RunResult>)

  const NO_RUNS := Tally(0, None)

  /** The tally of supervisor `i`, counted from the moves. */
  function Tallied(v: View, heartbeat: nat, moves: seq<Move>, i: nat, t: Tally): Tally
    decreases |moves|
  {
    if moves == [] then t
    else
      Tallied(Step(v, heartbeat, moves[0]), heartbeat, moves[1..], i,
              if TakesEffect(v, moves[0], i) then Counted(t, moves[0].r) else t)
  }

  function Counted(t: Tally, r: RunResult): Tally {
    match r
    case Clean => Tally(t.failures, Some(Clean))
    case Fenced => Tally(0, Some(Fenced))
    case Failed => Tally(t.failures + 1, Some(Failed))
  }

  /** Supervisor `i`, if there is one yet, has had those runs. */
  ghost predicate Matches(v: View, i: nat, t: Tally) {
    if i >= |v.sups| then t == NO_RUNS
    else
      var s := v.sups[i];
      && s.failures == t.failures
      && (s.phase.Waiting? ==> t.last.Some?)
      && (t.last == Some(Clean) ==> s.phase.Leaving? || s.phase.Finished?)
      && (t.last == Some(Failed) ==> t.failures > 0)
      && (t.last.None? || t.last == Some(Fenced) ==> t.failures == 0)
  }

  lemma StepCounts(v: View, heartbeat: nat, m: Move, i: nat, t: Tally)
    requires Valid(v, heartbeat) && Matches(v, i, t)
    ensures Matches(Step(v, heartbeat, m), i, if TakesEffect(v, m, i) then Counted(t, m.r) else t)
  {
    hide InOrder, ShownAs, EntryValid, Numbered;
    if i < |v.sups| { assert SupValid(v, heartbeat, i); }
  }

  lemma {:induction false} RunCounts(v: View, heartbeat: nat, moves: seq<Move>, i: nat, t: Tally)
    requires Valid(v, heartbeat) && Matches(v, i, t)
    ensures Matches(RunMoves(v, heartbeat, moves), i, Tallied(v, heartbeat, moves, i, t))
    decreases |moves|
  {
    hide Valid, Step, Matches;
    if moves != [] {
      StepKeepsValid(v, heartbeat, moves[0]);
      StepCounts(v, heartbeat, moves[0], i, t);
      RunCounts(Step(v, heartbeat, moves[0]), heartbeat, moves[1..], i,
                if TakesEffect(v, moves[0], i) then Counted(t, moves[0].r) else t);
    }
  }

  /** The backoff of any supervisor in any run, counted from what happened: it waits only
      after a fence or a plain failure; after a fence one heartbeat, and after `k` plain
      failures since its start or its last fence 2^k seconds, at most 60. */
  lemma WaitFollowsFailures(heartbeat: nat, moves: seq<Move>, i: nat)
    requires i < |RunMoves(NO_TASKS, heartbeat, moves).sups|
    requires RunMoves(NO_TASKS, heartbeat, moves).sups[i].phase.Waiting?
    ensures var t := Tallied(NO_TASKS, heartbeat, moves, i, NO_RUNS);
            && (t.last == Some(Fenced) || (t.last == Some(Failed) && t.failures > 0))
            && RunMoves(NO_TASKS, heartbeat, moves).sups[i].phase.delay ==
               if t.last == Some(Fenced) then heartbeat else Min(Pow2(t.failures), 60)
  {
    RunKeepsValid(NO_TASKS, heartbeat, moves);
    RunCounts(NO_TASKS, heartbeat, moves, i, NO_RUNS);
    hide Valid, Step;
    DelayInForce(RunMoves(NO_TASKS, heartbeat, moves), heartbeat, i);
    var t := Tallied(NO_TASKS, heartbeat, moves, i, NO_RUNS);
    match t.last.value {
      case Clean => assert false;
      case Fenced =>
      case Failed =>
    }
  }

  /** What is shown is so: the entry of a supervisor says working while its task runs and
      backoff while it waits. */
  ghost predicate Truthful(v: View) {
    forall i | 0 <= i < |v.sups| :: Tells(v, i)
  }

  predicate Tells(v: View, i: nat)
    requires i < |v.sups|
  {
    ShownAs(v, i) ==>
      && (v.sups[i].phase.Running? ==> v.states[v.sups[i].key].1 == Working)
      && (v.sups[i].phase.Waiting? ==> v.states[v.sups[i].key].1 == Backoff)
  }

  /** One supervisor's step touches no other's entry. */
  lemma MovedIsTruthful(v: View, heartbeat: nat, i: nat, s: Supervisor, states: States)
    requires Valid(v, heartbeat) && Truthful(v) && i < |v.sups| && SameSupervisor(v.sups[i], s, v.nextInstance)
    requires states == v.states || (s.instance.Some? && v.sups[i].instance.Some?
               && (states == Erase(v.states, s.key, s.instance.value)
                   || exists x :: states == SetState(v.states, s.key, s.instance.value, x)))
    requires Tells(Moved(v, i, s, states), i)
    ensures Truthful(Moved(v, i, s, states))
  {
    hide InOrder, EntryValid, TaskValid, Delay, SupOk;
    var w := Moved(v, i, s, states);
    forall j | 0 <= j < |w.sups| ensures Tells(w, j) {
      if j != i && ShownAs(w, j) {
        assert w.sups[j] == v.sups[j];
        assert v.sups[i].instance.Some? ==> v.sups[i].instance != v.sups[j].instance;
        assert ShownAs(v, j) && Tells(v, j);
      }
    }
  }

  lemma SameShowIsTruthful(v: View, w: View)
    requires Truthful(v) && SameShow(v, w)
    ensures Truthful(w)
  {
    forall j | 0 <= j < |w.sups| ensures Tells(w, j) {
      if j < |v.sups| {
        assert w.sups[j].phase == v.sups[j].phase && w.sups[j].key == v.sups[j].key;
        assert ShownAs(w, j) ==> ShownAs(v, j) && Tells(v, j);
      }
    }
  }

  lemma {:induction false} MoveIsTruthful(v: View, heartbeat: nat, m: Move)
    requires Valid(v, heartbeat) && Truthful(v)
    ensures Truthful(Step(v, heartbeat, m))
  {
    var w := Step(v, heartbeat, m);
    if m.Stop? {
      StopKeepsValid(v, heartbeat, m.key);
      SameShowIsTruthful(v, w);
    } else if m.Reap? {
      ReapKeepsValid(v, heartbeat, m.key);
      SameShowIsTruthful(v, w);
    } else if m.Spawn? {
      if m.key !in v.tasks {
        StartKeepsValid(v, heartbeat, m.key, m.fingerprint);
        SameShowIsTruthful(v, w);
      }
    } else if m.i < |v.sups| && w != v {
      OneIsTruthful(v, heartbeat, m);
    }
  }

  lemma OneIsTruthful(v: View, heartbeat: nat, m: Move)
    requires Valid(v, heartbeat) && Truthful(v) && !m.Stop? && !m.Reap? && !m.Spawn?
    requires m.i < |v.sups| && Step(v, heartbeat, m) != v
    ensures Truthful(Step(v, heartbeat, m))
  {
    assert SupValid(v, heartbeat, m.i) && Tells(v, m.i);
    hide Valid, Truthful, Delay, AfterRun, InOrder;
    var w := Step(v, heartbeat, m);
    AfterRunIs(v.sups[m.i], if m.Ends? then m.r else Clean, heartbeat);
    assert w == Moved(v, m.i, w.sups[m.i], w.states);
    MovedIsTruthful(v, heartbeat, m.i, w.sups[m.i], w.states);
  }

  lemma AfterRunIs(s: Supervisor, r: RunResult, heartbeat: nat)
    ensures var t := AfterRun(s, r, heartbeat);
            && t.key == s.key && t.cancelled == s.cancelled && t.instance == s.instance
            && (t.phase.Waiting? || t == s.(phase := Leaving))
  {
  }

  /** In every state of every run. */
  lemma {:induction false} AlwaysTruthful(v: View, heartbeat: nat, moves: seq<Move>)
    requires Valid(v, heartbeat) && Truthful(v)
    ensures Truthful(RunMoves(v, heartbeat, moves))
    decreases |moves|
  {
    hide Valid, Step, Truthful;
    if moves != [] {
      StepKeepsValid(v, heartbeat, moves[0]);
      MoveIsTruthful(v, heartbeat, moves[0]);
      AlwaysTruthful(Step(v, heartbeat, moves[0]), heartbeat, moves[1..]);
    }
  }

  lemma RunNone(v: View, heartbeat: nat)
    ensures RunMoves(v, heartbeat, []) == v
  {
  }

  lemma RunNext(v: View, heartbeat: nat, m: Move, rest: seq<Move>)
    ensures RunMoves(v, heartbeat, [m] + rest) == RunMoves(Step(v, heartbeat, m), heartbeat, rest)
  {
    assert ([m] + rest)[1..] == rest;
  }

  /** From wherever it is, a supervisor that has not left its loop comes to run its task
      and to be shown as doing so, unless a newer one of the key is. */
  lemma ComesToRun(v: View, heartbeat: nat, i: nat)
    requires Valid(v, heartbeat) && i < |v.sups| && !v.sups[i].phase.Leaving? && !v.sups[i].phase.Finished?
    ensures var s, w := v.sups[i], RunMoves(v, heartbeat, [FirstPoll(i), Wakes(i, true), Goes(i)]);
            && w.sups[i].phase.Running? && w.sups[i].instance.Some? && w.sups[i].cancelled == s.cancelled
            && (s.phase.Running? ==> w == v)
            && (!s.phase.Running? ==>
                  && s.key in w.states
                  && (w.states[s.key] == (w.sups[i].instance.value, Working)
                      || w.states[s.key].0 > w.sups[i].instance.value))
  {
    assert SupValid(v, heartbeat, i);
    hide Valid, RunMoves, Delay, Numbered, EntryValid, TaskValid;
    var a := Step(v, heartbeat, FirstPoll(i));
    var b := Step(a, heartbeat, Wakes(i, true));
    RunNext(v, heartbeat, FirstPoll(i), [Wakes(i, true), Goes(i)]);
    RunNext(a, heartbeat, Wakes(i, true), [Goes(i)]);
    RunNext(b, heartbeat, Goes(i), []);
    RunNone(Step(b, heartbeat, Goes(i)), heartbeat);
    assert [Goes(i)] + [] == [Goes(i)];
  }

  /** From wherever it is, a cancelled supervisor comes to its end, whatever its task
      returns, and leaves no entry of its own behind. */
  lemma CancelledEnds(v: View, heartbeat: nat, i: nat, r: RunResult)
    requires Valid(v, heartbeat) && i < |v.sups| && v.sups[i].cancelled && !v.sups[i].phase.Finished?
    ensures var s, w := v.sups[i],
                        RunMoves(v, heartbeat, [FirstPoll(i), Goes(i), Ends(i, r), Wakes(i, false), Leaves(i)]);
            && w.sups[i].phase.Finished? && w.sups[i].instance.Some?
            && (s.key in w.states ==> w.states[s.key].0 != w.sups[i].instance.value)
  {
    assert SupValid(v, heartbeat, i);
    hide Valid, RunMoves, Delay, Numbered, EntryValid, TaskValid;
    var a := Step(v, heartbeat, FirstPoll(i));
    var b := Step(a, heartbeat, Goes(i));
    var c := Step(b, heartbeat, Ends(i, r));
    var d := Step(c, heartbeat, Wakes(i, false));
    RunNext(v, heartbeat, FirstPoll(i), [Goes(i), Ends(i, r), Wakes(i, false), Leaves(i)]);
    RunNext(a, heartbeat, Goes(i), [Ends(i, r), Wakes(i, false), Leaves(i)]);
    RunNext(b, heartbeat, Ends(i, r), [Wakes(i, false), Leaves(i)]);
    RunNext(c, heartbeat, Wakes(i, false), [Leaves(i)]);
    RunNext(d, heartbeat, Leaves(i), []);
    RunNone(Step(d, heartbeat, Leaves(i)), heartbeat);
    assert [Leaves(i)] + [] == [Leaves(i)];
  }

  /** Supervisor 0 has been replaced by 1, and neither has been polled. */
  predicate Replaced(v: View, key: Assignment) {
    && v.states == map[] && |v.sups| == 2 && v.sups[0].key == key && v.sups[1].key == key
    && v.sups[0].phase.Spawned? && v.sups[0].instance.None? && v.sups[0].cancelled
    && v.sups[1].phase.Spawned? && v.sups[1].instance.None? && !v.sups[1].cancelled
  }

  function LateRun(v: View, heartbeat: nat): View
    requires |v.sups| == 2
  {
    var replacementRuns := Announce(Take(v, 1), 1);
    var oldRuns := Announce(Take(replacementRuns, 0), 0);
    Exit(EndRun(oldRuns, 0, Clean, heartbeat), 0)
  }

  lemma LateRunHides(v: View, key: Assignment, heartbeat: nat)
    requires Replaced(v, key)
    ensures var w := LateRun(v, heartbeat);
            |w.sups| == 2 && w.sups[1].phase.Running? && !w.sups[1].cancelled && w.sups[0].phase.Finished?
            && key !in w.states && w.tasks == v.tasks
  {
    var a := Take(v, 1);
    var b := Announce(a, 1);
    assert b.sups[0] == v.sups[0] && b.states[key] == (v.nextInstance, Working);
    var c := Announce(Take(b, 0), 0);
    assert c.states[key] == (v.nextInstance + 1, Working) && c.sups[1] == b.sups[1];
    var d := EndRun(c, 0, Clean, heartbeat);
    assert d.sups[0].phase.Leaving? && d.sups[1] == b.sups[1];
  }

  /** A replaced supervisor whose first poll comes after its replacement's takes the
      larger number: it overwrites the replacement's entry, then removes it, and the
      replacement runs on unshown. */
  method LateFirstPoll(key: Assignment, heartbeat: nat) returns (n: NodeTasks)
    ensures n.Ok() && n.tasks.Keys == {key} && n.tasks[key].sup == 1
    ensures |n.sups| == 2 && n.sups[1].phase.Running? && !n.sups[1].cancelled && n.sups[0].phase.Finished?
    ensures key !in n.states
  {
    n := ReplacedBeforePolling(key, heartbeat);
    LateRunHides(n.Now(), key, heartbeat);
    hide *;
    n.FirstPoll(1);
    n.Start(1);
    n.FirstPoll(0);
    n.Start(0);
    n.RunEnds(0, Clean);
    n.Leave(0);
  }

  method ReplacedBeforePolling(key: Assignment, heartbeat: nat) returns (n: NodeTasks)
    ensures fresh(n) && n.Ok() && n.heartbeat == heartbeat && Replaced(n.Now(), key)
    ensures n.tasks.Keys == {key} && n.tasks[key].sup == 1
  {
    hide Valid, InOrder;
    n := new NodeTasks(heartbeat);
    assert Missing(n.Now(), map[key := 1]) == {key};
    n.Reconcile(map[key := 1]);
    TaskBound(n.Now(), heartbeat, key);
    OnlyCurrentStand(n.Now(), heartbeat);
    FreshSpawn(n.Now(), heartbeat, key);
    assert Missing(n.Now(), map[key := 2]) == {key};
    n.Reconcile(map[key := 2]);
    TaskBound(n.Now(), heartbeat, key);
    FreshSpawn(n.Now(), heartbeat, key);
  }

  lemma FreshSpawn(v: View, heartbeat: nat, key: Assignment)
    requires Valid(v, heartbeat) && key in v.tasks
    ensures v.tasks[key].sup < |v.sups| && v.sups[v.tasks[key].sup].key == key && !v.sups[v.tasks[key].sup].cancelled
  {
    assert TaskValid(v, key);
  }
}
