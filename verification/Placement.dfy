/** Rendezvous placement (src/placement.rs): a frozen hash scores every candidate
    node, and the ranking by score assigns owners. */
module Placement {
  import opened Wrappers
  import opened Services
  import opened Sorting

  const FNV_OFFSET: bv64 := 0xcbf29ce484222325

  /** One step of the hash; the multiplier is the FNV prime, and wraps. */
  function Round(h: bv64, b: bv8): bv64 {
    (h ^ (b as bv64)) * 0x100000001b3
  }

  /** The step backwards: 0xce965057aff6957b is the prime's inverse. */
  function Unround(h: bv64, b: bv8): bv64 {
    (h * 0xce965057aff6957b) ^ (b as bv64)
  }

  function Fnv(h: bv64, bytes: Bytes): bv64
    decreases |bytes|
  {
    if bytes == [] then h else Fnv(Round(h, bytes[0]), bytes[1..])
  }

  function Flatten(chunks: seq<Bytes>): Bytes {
    if chunks == [] then [] else chunks[0] + Flatten(chunks[1..])
  }

  lemma {:induction false} FnvAppend(h: bv64, a: Bytes, b: Bytes)
    ensures Fnv(h, a + b) == Fnv(Fnv(h, a), b)
    decreases |a|
  {
    hide Round;
    if a == [] {
      assert a + b == b;
    } else {
      assert (a + b)[0] == a[0] && (a + b)[1..] == a[1..] + b;
      FnvAppend(Round(h, a[0]), a[1..], b);
    }
  }

  lemma {:induction false} FlattenAppend(a: seq<Bytes>, b: Bytes)
    ensures Flatten(a + [b]) == Flatten(a) + b
  {
    if a == [] {
      assert Flatten([b]) == b + Flatten([]);
    } else {
      assert (a + [b])[1..] == a[1..] + [b];
      FlattenAppend(a[1..], b);
    }
  }

  /** `fnv1a64`: one running hash over all the chunks. */
  method Fnv1a64(chunks: seq<Bytes>) returns (h: bv64)
    ensures h == Fnv(FNV_OFFSET, Flatten(chunks))
  {
    hide Round;
    h := FNV_OFFSET;
    for i := 0 to |chunks|
      invariant h == Fnv(FNV_OFFSET, Flatten(chunks[..i]))
    {
      var chunk := chunks[i];
      ghost var before := h;
      for j := 0 to |chunk|
        invariant h == Fnv(before, chunk[..j])
      {
        assert chunk[..j + 1] == chunk[..j] + [chunk[j]];
        FnvAppend(before, chunk[..j], [chunk[j]]);
        FnvOne(h, chunk[j]);
        h := Round(h, chunk[j]);
      }
      assert chunk[..|chunk|] == chunk;
      assert chunks[..i + 1] == chunks[..i] + [chunk];
      FlattenAppend(chunks[..i], chunk);
      FnvAppend(FNV_OFFSET, Flatten(chunks[..i]), chunk);
    }
    assert chunks[..|chunks|] == chunks;
  }

  lemma FnvOne(h: bv64, b: bv8)
    ensures Fnv(h, [b]) == Round(h, b)
  {
    hide Round;
    assert Fnv(h, [b]) == Fnv(Round(h, b), [b][1..]);
  }

  /* Every hash step can be undone. */

  lemma RoundIs(h: bv64, b: bv8)
    ensures Round(h, b) == (h ^ (b as bv64)) * 0x100000001b3
  {
  }

  lemma UnroundIs(h: bv64, b: bv8)
    ensures Unround(h, b) == (h * 0xce965057aff6957b) ^ (b as bv64)
  {
  }

  lemma PrimeInverts(h: bv64, b: bv8)
    ensures Unround((h ^ (b as bv64)) * 0x100000001b3, b) == h
  {
  }

  lemma InverseInverts(h: bv64, b: bv8)
    ensures (((h * 0xce965057aff6957b) ^ (b as bv64)) ^ (b as bv64)) * 0x100000001b3 == h
  {
  }

  lemma RoundOfUnround(h: bv64, b: bv8)
    ensures Round((h * 0xce965057aff6957b) ^ (b as bv64), b)
            == (((h * 0xce965057aff6957b) ^ (b as bv64)) ^ (b as bv64)) * 0x100000001b3
  {
  }

  lemma {:induction false} RoundUndoes(h: bv64, b: bv8)
    ensures Round((h * 0xce965057aff6957b) ^ (b as bv64), b) == h
  {
    RoundOfUnround(h, b);
    InverseInverts(h, b);
    hide Round;
  }

  /** Every step of the hash is a bijection of the 64-bit states. */
  lemma {:induction false} RoundIsBijective(h: bv64, b: bv8)
    ensures Unround(Round(h, b), b) == h
    ensures Round(Unround(h, b), b) == h
  {
    RoundIs(h, b);
    PrimeInverts(h, b);
    UnroundIs(h, b);
    RoundUndoes(h, b);
    hide Round, Unround;
  }

  lemma UnroundSeparatesBytes(h: bv64, a: bv8, b: bv8)
    requires Unround(h, a) == Unround(h, b)
    ensures a == b
  {
  }

  /** From one state, different bytes lead to different states. */
  lemma RoundSeparatesBytes(h: bv64, a: bv8, b: bv8)
    requires Round(h, a) == Round(h, b)
    ensures a == b
  {
    RoundIsBijective(h, a);
    RoundIsBijective(h, b);
    UnroundSeparatesBytes(Round(h, a), a, b);
    hide Round, Unround;
  }

  lemma {:induction false} FnvIsInjective(g: bv64, h: bv64, bytes: Bytes)
    requires Fnv(g, bytes) == Fnv(h, bytes)
    ensures g == h
    decreases |bytes|
  {
    hide Round, Unround;
    if bytes != [] {
      FnvIsInjective(Round(g, bytes[0]), Round(h, bytes[0]), bytes[1..]);
      RoundIsBijective(g, bytes[0]);
      RoundIsBijective(h, bytes[0]);
    }
  }

  /** Two strings of one length that differ in exactly one byte, at `k`. */
  predicate OneByteApart(a: Bytes, b: Bytes, k: nat) {
    && |a| == |b| && k < |a| && a[k] != b[k]
    && forall i | 0 <= i < |a| && i != k :: a[i] == b[i]
  }

  lemma FnvSeparates(h: bv64, a: Bytes, b: Bytes, k: nat)
    requires OneByteApart(a, b, k)
    ensures Fnv(h, a) != Fnv(h, b)
  {
    hide Round;
    var p, q := a[..k], a[k + 1..];
    assert a == p + ([a[k]] + q) && b == p + ([b[k]] + q);
    FnvAppend(h, p, [a[k]] + q);
    FnvAppend(h, p, [b[k]] + q);
    var m := Fnv(h, p);
    FnvAppend(m, [a[k]], q);
    FnvAppend(m, [b[k]], q);
    FnvOne(m, a[k]);
    FnvOne(m, b[k]);
    if Fnv(h, a) == Fnv(h, b) {
      FnvIsInjective(Round(m, a[k]), Round(m, b[k]), q);
      RoundSeparatesBytes(m, a[k], b[k]);
    }
  }

  /* The scores. */

  function PairChunks(database: Bytes, service: Service, node: Bytes): seq<Bytes> {
    [database, [0], ServiceBytes(service), [0], node]
  }

  function TripleChunks(database: Bytes, target: Bytes, node: Bytes): seq<Bytes> {
    [database, [0], ServiceBytes(Mirror), [0], target, [0], node]
  }

  /** What is scored: a service, or one mirror target. */
  datatype Slot = OfService(service: Service) | OfTarget(target: Bytes)

  function Prefix(database: Bytes, slot: Slot): Bytes {
    match slot
    case OfService(s) => database + [0] + ServiceBytes(s) + [0]
    case OfTarget(t) => database + [0] + ServiceBytes(Mirror) + [0] + t + [0]
  }

  /** The frozen score of one candidate node. */
  function ScoreOf(database: Bytes, slot: Slot, node: Bytes): bv64 {
    Fnv(FNV_OFFSET, Prefix(database, slot) + node)
  }

  lemma FlattenFive(a: Bytes, b: Bytes, c: Bytes, d: Bytes, e: Bytes)
    ensures Flatten([a, b, c, d, e]) == a + b + c + d + e
  {
    FlattenNone(a);
    FlattenAppend([a], b);
    FlattenAppend([a, b], c);
    FlattenAppend([a, b, c], d);
    FlattenAppend([a, b, c, d], e);
    hide Flatten;
    assert [a] + [b] == [a, b] && [a, b] + [c] == [a, b, c];
    assert [a, b, c] + [d] == [a, b, c, d] && [a, b, c, d] + [e] == [a, b, c, d, e];
  }

  lemma FlattenNone(a: Bytes)
    ensures Flatten([a]) == a
  {
    assert Flatten([a]) == a + Flatten([a][1..]);
  }

  method Score(database: Bytes, service: Service, node: Bytes) returns (h: bv64)
    ensures h == ScoreOf(database, OfService(service), node)
  {
    h := Fnv1a64(PairChunks(database, service, node));
    FlattenFive(database, [0], ServiceBytes(service), [0], node);
  }

  method ScoreTarget(database: Bytes, target: Bytes, node: Bytes) returns (h: bv64)
    ensures h == ScoreOf(database, OfTarget(target), node)
  {
    h := Fnv1a64(TripleChunks(database, target, node));
    var five := [database, [0], ServiceBytes(Mirror), [0], target];
    FlattenFive(database, [0], ServiceBytes(Mirror), [0], target);
    FlattenAppend(five, [0]);
    FlattenAppend(five + [[0]], node);
    assert five + [[0]] + [node] == TripleChunks(database, target, node);
  }

  /** Node ids of one length that differ in exactly one byte never tie, whatever the
      database, service or target. */
  lemma CloseIdsNeverTie(database: Bytes, slot: Slot, a: Bytes, b: Bytes, k: nat)
    requires OneByteApart(a, b, k)
    ensures ScoreOf(database, slot, a) != ScoreOf(database, slot, b)
  {
    var p := Prefix(database, slot);
    assert OneByteApart(p + a, p + b, |p| + k);
    FnvSeparates(FNV_OFFSET, p + a, p + b, |p| + k);
  }

  /* The keys. */

  predicate NoNul(s: Bytes) {
    0 !in s
  }

  function FirstNul(s: Bytes): nat {
    if s == [] || s[0] == 0 then 0 else 1 + FirstNul(s[1..])
  }

  lemma {:induction false} FirstNulAfter(a: Bytes, x: Bytes)
    requires NoNul(a)
    ensures FirstNul(a + [0] + x) == |a|
  {
    if a != [] {
      assert a == [a[0]] + a[1..];
      FirstNulAfter(a[1..], x);
      assert (a + [0] + x)[1..] == a[1..] + [0] + x;
    }
  }

  lemma SplitAtNul(a: Bytes, b: Bytes, x: Bytes, y: Bytes)
    requires NoNul(a) && NoNul(b) && a + [0] + x == b + [0] + y
    ensures a == b && x == y
  {
    FirstNulAfter(a, x);
    FirstNulAfter(b, y);
    assert a == (a + [0] + x)[..|a|] && b == (b + [0] + y)[..|b|];
    assert x == (a + [0] + x)[|a| + 1..] && y == (b + [0] + y)[|b| + 1..];
  }

  /** The parts a pair's key is made of can be read back from it. */
  lemma PairKeysAreDistinct(d: Bytes, s: Service, n: Bytes, d': Bytes, s': Service, n': Bytes)
    requires NoNul(d) && NoNul(d')
    requires Prefix(d, OfService(s)) + n == Prefix(d', OfService(s')) + n'
    ensures d == d' && s == s' && n == n'
  {
    hide ServiceBytes, NoNul;
    ServiceBytesNoNul(s);
    ServiceBytesNoNul(s');
    assert Prefix(d, OfService(s)) + n == d + [0] + (ServiceBytes(s) + [0] + n);
    assert Prefix(d', OfService(s')) + n' == d' + [0] + (ServiceBytes(s') + [0] + n');
    SplitAtNul(d, d', ServiceBytes(s) + [0] + n, ServiceBytes(s') + [0] + n');
    SplitAtNul(ServiceBytes(s), ServiceBytes(s'), n, n');
    ServiceBytesDistinct(s, s');
  }

  lemma ServiceBytesNoNul(s: Service)
    ensures NoNul(ServiceBytes(s))
  {
  }

  lemma ServiceBytesDistinct(s: Service, t: Service)
    requires ServiceBytes(s) == ServiceBytes(t)
    ensures s == t
  {
    assert |ServiceBytes(s)| == |ServiceBytes(t)|;
  }

  lemma HasNul(t: Bytes, n: Bytes)
    ensures !NoNul(t + [0] + n)
  {
    assert (t + [0] + n)[|t|] == 0;
  }

  /** A mirror target's key is never a pair's key of the same database and node,
      unless a node id holds a NUL. */
  lemma TargetKeysAreDistinct(d: Bytes, t: Bytes, n: Bytes, s: Service, n': Bytes)
    requires NoNul(d) && NoNul(n) && NoNul(n')
    ensures Prefix(d, OfTarget(t)) + n != Prefix(d, OfService(s)) + n'
  {
    hide ServiceBytes, NoNul;
    var x, y := Prefix(d, OfTarget(t)) + n, Prefix(d, OfService(s)) + n';
    var rest, rest' := ServiceBytes(Mirror) + [0] + (t + [0] + n), ServiceBytes(s) + [0] + n';
    assert x == d + [0] + rest && y == d + [0] + rest';
    ServiceBytesNoNul(s);
    ServiceBytesNoNul(Mirror);
    HasNul(t, n);
    if x == y {
      SplitAtNul(d, d, rest, rest');
      SplitAtNul(ServiceBytes(Mirror), ServiceBytes(s), t + [0] + n, n');
    }
  }

  /* The ranking. */

  predicate LexLe(a: Bytes, b: Bytes)
    decreases |a|
  {
    a == [] || (b != [] && (a[0] < b[0] || (a[0] == b[0] && LexLe(a[1..], b[1..]))))
  }

  lemma {:induction false} LexTotal(a: Bytes, b: Bytes)
    ensures LexLe(a, b) || LexLe(b, a)
    ensures LexLe(a, b) && LexLe(b, a) ==> a == b
    decreases |a|
  {
    if a != [] && b != [] {
      LexTotal(a[1..], b[1..]);
      if a[0] == b[0] {
        assert a == [a[0]] + a[1..] && b == [b[0]] + b[1..];
      }
    }
  }

  lemma {:induction false} LexTransitive(a: Bytes, b: Bytes, c: Bytes)
    requires LexLe(a, b) && LexLe(b, c)
    ensures LexLe(a, c)
    decreases |a|
  {
    if a != [] && a[0] == b[0] && b[0] == c[0] {
      LexTransitive(a[1..], b[1..], c[1..]);
    }
  }

  /** The first difference decides, and a proper prefix comes first. */
  lemma {:induction false} LexLeExactly(a: Bytes, b: Bytes)
    ensures LexLe(a, b) <==>
            exists k: nat :: k <= |a| && k <= |b| && a[..k] == b[..k] && (k == |a| || (k < |b| && a[k] < b[k]))
    decreases |a|
  {
    if a == [] {
      assert a[..0] == b[..0];
    } else if b != [] && a[0] == b[0] {
      LexLeExactly(a[1..], b[1..]);
      forall k: nat | k <= |a| && k <= |b| && k > 0
        ensures a[..k] == b[..k] <==> a[1..][..k - 1] == b[1..][..k - 1]
      {
        assert a[..k] == [a[0]] + a[1..][..k - 1] && b[..k] == [b[0]] + b[1..][..k - 1];
      }
      if j: nat :| j <= |a[1..]| && j <= |b[1..]| && a[1..][..j] == b[1..][..j]
                   && (j == |a[1..]| || (j < |b[1..]| && a[1..][j] < b[1..][j])) {
        assert a[..j + 1] == b[..j + 1];
      }
      if k: nat :| k <= |a| && k <= |b| && a[..k] == b[..k] && (k == |a| || (k < |b| && a[k] < b[k])) {
        assert a[1..][..k - 1] == b[1..][..k - 1];
      }
    } else if b != [] {
      assert a[..0] == b[..0];
      forall k: nat | 0 < k <= |a| && k <= |b| ensures a[..k] != b[..k] {
        assert a[..k][0] != b[..k][0];
      }
    }
  }

  /** A score as the number it is compared as. */
  function Points(database: Bytes, slot: Slot, node: Bytes): nat {
    ScoreOf(database, slot, node) as nat
  }

  /** Higher scores first, ties by node id. */
  predicate Better(x: nat, a: Bytes, y: nat, b: Bytes) {
    x > y || (x == y && LexLe(a, b))
  }

  /** Best first. */
  predicate Ahead(database: Bytes, slot: Slot, a: Bytes, b: Bytes) {
    Better(Points(database, slot, a), a, Points(database, slot, b), b)
  }

  lemma BetterTotal(x: nat, a: Bytes, y: nat, b: Bytes)
    ensures Better(x, a, y, b) || Better(y, b, x, a)
    ensures Better(x, a, y, b) && Better(y, b, x, a) ==> x == y && a == b
  {
    LexTotal(a, b);
  }

  lemma BetterTransitive(x: nat, a: Bytes, y: nat, b: Bytes, z: nat, c: Bytes)
    requires Better(x, a, y, b) && Better(y, b, z, c)
    ensures Better(x, a, z, c)
  {
    if LexLe(a, b) && LexLe(b, c) { LexTransitive(a, b, c); }
  }

  function Order(database: Bytes, slot: Slot): (Bytes, Bytes) -> bool {
    (a, b) => Ahead(database, slot, a, b)
  }

  lemma AheadTotal(database: Bytes, slot: Slot, a: Bytes, b: Bytes)
    ensures Ahead(database, slot, a, b) || Ahead(database, slot, b, a)
    ensures Ahead(database, slot, a, b) && Ahead(database, slot, b, a) ==> a == b
  {
    hide Points, Better;
    BetterTotal(Points(database, slot, a), a, Points(database, slot, b), b);
  }

  lemma AheadTransitive(database: Bytes, slot: Slot, a: Bytes, b: Bytes, c: Bytes)
    requires Ahead(database, slot, a, b) && Ahead(database, slot, b, c)
    ensures Ahead(database, slot, a, c)
  {
    hide Points, Better;
    BetterTransitive(Points(database, slot, a), a, Points(database, slot, b), b, Points(database, slot, c), c);
  }

  lemma {:induction false} OrderIsTotal(database: Bytes, slot: Slot)
    ensures TotalOrder(Order(database, slot))
  {
    hide Ahead;
    var le := Order(database, slot);
    forall a, b ensures le(a, b) || le(b, a) { AheadTotal(database, slot, a, b); }
    forall a, b | le(a, b) && le(b, a) ensures a == b { AheadTotal(database, slot, a, b); }
    forall a, b, c | le(a, b) && le(b, c) ensures le(a, c) { AheadTransitive(database, slot, a, b, c); }
  }

  /** `rank` and `rank_target`: sort the scored candidates in place. */
  function Rank(database: Bytes, slot: Slot, candidates: seq<Bytes>): seq<Bytes> {
    Sort(Order(database, slot), candidates)
  }

  function Take(s: seq<Bytes>, n: nat): seq<Bytes> {
    if n < |s| then s[..n] else s
  }

  /** `owners`: the top `count` of the ranking. */
  function Owners(database: Bytes, slot: Slot, count: nat, candidates: seq<Bytes>): seq<Bytes> {
    Take(Rank(database, slot, candidates), count)
  }

  /** `owner_target`: the top of the ranking. */
  function OwnerTarget(database: Bytes, target: Bytes, candidates: seq<Bytes>): Option<Bytes> {
    var ranked := Rank(database, OfTarget(target), candidates);
    if ranked == [] then None else Some(ranked[0])
  }

  /** The ranking lists the candidates best first, each as often as it was given. */
  lemma RankRanks(database: Bytes, slot: Slot, candidates: seq<Bytes>)
    ensures var r := Rank(database, slot, candidates);
            multiset(r) == multiset(candidates)
            && forall i, j | 0 <= i < j < |r| ::
                 var x, y := ScoreOf(database, slot, r[i]) as nat, ScoreOf(database, slot, r[j]) as nat;
                 x > y || (x == y && LexLe(r[i], r[j]))
  {
    OrderIsTotal(database, slot);
    SortSorts(Order(database, slot), candidates);
    var r := Rank(database, slot, candidates);
    hide ScoreOf, LexLe;
    forall i, j | 0 <= i < j < |r|
      ensures ScoreOf(database, slot, r[i]) as nat > ScoreOf(database, slot, r[j]) as nat
              || (ScoreOf(database, slot, r[i]) as nat == ScoreOf(database, slot, r[j]) as nat && LexLe(r[i], r[j]))
    {
      assert Order(database, slot)(r[i], r[j]);
    }
  }

  /** The ranking depends on which candidates there are, not on their order. */
  lemma RankIgnoresOrder(database: Bytes, slot: Slot, a: seq<Bytes>, b: seq<Bytes>)
    requires Distinct(a) && Distinct(b) && forall n :: n in a <==> n in b
    ensures Rank(database, slot, a) == Rank(database, slot, b)
  {
    OrderIsTotal(database, slot);
    SameMembers(a, b);
    SortSorts(Order(database, slot), a);
    SortSorts(Order(database, slot), b);
    SortedIsUnique(Order(database, slot), Rank(database, slot, a), Rank(database, slot, b));
  }

  /** Without some nodes, the others keep their relative order. */
  lemma RemovalKeepsOrder(database: Bytes, slot: Slot, candidates: seq<Bytes>, keep: Bytes -> bool)
    ensures Rank(database, slot, Filter(keep, candidates)) == Filter(keep, Rank(database, slot, candidates))
  {
    OrderIsTotal(database, slot);
    SortFilter(Order(database, slot), keep, candidates);
  }

  /** A node that joins slips in at one place. */
  lemma JoinSlipsIn(database: Bytes, slot: Slot, candidates: seq<Bytes>, node: Bytes) returns (k: nat)
    ensures var r := Rank(database, slot, candidates);
            k <= |r| && Rank(database, slot, candidates + [node]) == r[..k] + [node] + r[k..]
  {
    var le := Order(database, slot);
    OrderIsTotal(database, slot);
    var front := [node] + candidates;
    assert front[1..] == candidates;
    k := InsertAt(le, node, Sort(le, candidates));
    SortSorts(le, front);
    SortSorts(le, candidates + [node]);
    assert multiset(front) == multiset(candidates + [node]);
    SortedIsUnique(le, Sort(le, front), Sort(le, candidates + [node]));
  }

  /** The top of a list before and after one element slips in at `k`. */
  lemma TakeInserted(r: seq<Bytes>, k: nat, node: Bytes, count: nat, i: nat)
    requires k <= |r|
    ensures var after := Take(r[..k] + [node] + r[k..], count);
            && |after| == Min(count, |r| + 1)
            && (i < |after| ==> after[i] == if i < k then r[i] else if i == k then node else r[i - 1])
  {
  }

  /** Adding a node displaces at most one owner, the lowest ranked, and only the
      newcomer gains. */
  lemma JoinDisplacesAtMostOne(database: Bytes, slot: Slot, candidates: seq<Bytes>, node: Bytes, count: nat)
    requires Distinct(candidates) && node !in candidates
    ensures var was := Owners(database, slot, count, candidates);
            var now := Owners(database, slot, count, candidates + [node]);
            && (forall n | n in now :: n == node || n in was)
            && (forall n | n in was && n !in now :: |was| == count && n == was[count - 1])
            && (node !in now ==> now == was)
  {
    hide Order, Sort;
    var r := Rank(database, slot, candidates);
    var k := JoinSlipsIn(database, slot, candidates, node);
    var was, now := Take(r, count), Take(r[..k] + [node] + r[k..], count);
    forall i | 0 <= i < |now| ensures now[i] == node || now[i] in was {
      TakeInserted(r, k, node, count, i);
      if i < k { assert was[i] == now[i]; }
      if i > k { assert was[i - 1] == now[i]; }
    }
    forall n | n in was ensures n in now || (|was| == count && n == was[count - 1]) {
      var i :| 0 <= i < |was| && was[i] == n;
      TakeInserted(r, k, node, count, i);
      TakeInserted(r, k, node, count, i + 1);
      assert i < k ==> now[i] == n;
      assert i >= k && i + 1 < |now| ==> now[i + 1] == n;
    }
    if k < count {
      TakeInserted(r, k, node, count, k);
      assert now[k] == node;
    } else {
      assert now == was;
    }
  }

  /** Each pair has min(count, candidates) owners, all different, all candidates. */
  lemma OwnersAreCapped(database: Bytes, slot: Slot, count: nat, candidates: seq<Bytes>)
    requires Distinct(candidates)
    ensures var o := Owners(database, slot, count, candidates);
            |o| == Min(count, |candidates|) && Distinct(o) && forall n | n in o :: n in candidates
  {
    SortDistinct(Order(database, slot), candidates);
  }

  /** No candidate that is not an owner beats one that is. */
  lemma OwnersAreBest(database: Bytes, slot: Slot, count: nat, candidates: seq<Bytes>, a: Bytes, b: Bytes)
    requires a in Owners(database, slot, count, candidates)
    requires b in candidates && b !in Owners(database, slot, count, candidates)
    ensures var x, y := ScoreOf(database, slot, a) as nat, ScoreOf(database, slot, b) as nat;
            x > y || (x == y && LexLe(a, b))
  {
    hide ScoreOf, LexLe, Rank;
    RankRanks(database, slot, candidates);
    var r := Rank(database, slot, candidates);
    assert b in multiset(candidates) && b in multiset(r);
    var i :| 0 <= i < |r| && r[i] == a && i < count;
    var j :| 0 <= j < |r| && r[j] == b;
    assert j >= count;
  }
}
