/** The scores the fleet has agreed on (src/placement.rs), byte for byte: nodes of
    different versions must rank alike. */
module FrozenScores {
  import opened Services
  import opened Placement

  /* "s3://b/db", "sleet-1", "sleet-2" and "dr". */

  const DATABASE: Bytes := [0x73, 0x33, 0x3a, 0x2f, 0x2f, 0x62, 0x2f] + [0x64, 0x62]
  const NODE1: Bytes := [0x73, 0x6c, 0x65, 0x65, 0x74, 0x2d, 0x31]
  const NODE2: Bytes := [0x73, 0x6c, 0x65, 0x65, 0x74, 0x2d, 0x32]
  const TARGET: Bytes := [0x64, 0x72]

  /** One step of the hash through `k`. */
  lemma At(h: bv64, k: Bytes, i: nat, b: bv8, next: bv64)
    requires i < |k| && k[i] == b && Round(h, b) == next
    ensures Fnv(h, k[i..]) == Fnv(next, k[i + 1..])
  {
    hide Round;
    assert k[i..][0] == k[i] && k[i..][1..] == k[i + 1..];
  }

  lemma Ends(h: bv64, k: Bytes)
    ensures Fnv(h, k[|k|..]) == h
    ensures k[0..] == k
  {
  }

  lemma Then(h: bv64, a: Bytes, b: Bytes, mid: bv64)
    requires Fnv(h, a) == mid
    ensures Fnv(h, a + b) == Fnv(mid, b)
  {
    FnvAppend(h, a, b);
  }

  /** "s3://b/". */
  lemma HashDatabaseFront(k: Bytes)
    requires k == [0x73, 0x33, 0x3a, 0x2f, 0x2f, 0x62, 0x2f]
    ensures Fnv(0xcbf29ce484222325, k) == 0x567b893dc3ae339a
  {
    hide Fnv;
    At(0xcbf29ce484222325, k, 0, 0x73, 0xaf63ee4c86020b22);
    At(0xaf63ee4c86020b22, k, 1, 0x33, 0x08d8fd07b578cde3);
    At(0x08d8fd07b578cde3, k, 2, 0x3a, 0x8183cd195c45c7bb);
    At(0x8183cd195c45c7bb, k, 3, 0x2f, 0x58bd1617ca92207c);
    At(0x58bd1617ca92207c, k, 4, 0x2f, 0x5b6cdd6d364ced09);
    At(0x5b6cdd6d364ced09, k, 5, 0x62, 0xa6e9ab9344b76cd1);
    At(0xa6e9ab9344b76cd1, k, 6, 0x2f, 0x567b893dc3ae339a);
    Ends(0x567b893dc3ae339a, k);
  }

  /** Then "db" and its NUL. */
  lemma HashDatabase(k: Bytes)
    requires k == [0x64, 0x62, 0x00]
    ensures Fnv(0x567b893dc3ae339a, k) == 0x1b62bd69703427b8
  {
    hide Fnv;
    At(0x567b893dc3ae339a, k, 0, 0x64, 0xa21e31f38102589a);
    At(0xa21e31f38102589a, k, 1, 0x62, 0x7ba7d8c436fd2d68);
    At(0x7ba7d8c436fd2d68, k, 2, 0x00, 0x1b62bd69703427b8);
    Ends(0x1b62bd69703427b8, k);
  }

  /** Then "gc" and its NUL. */
  lemma HashGc(k: Bytes)
    requires k == [0x67, 0x63, 0x00]
    ensures Fnv(0x1b62bd69703427b8, k) == 0x2ae47d71278c97be
  {
    hide Fnv;
    At(0x1b62bd69703427b8, k, 0, 0x67, 0xbcefb929a89fbfed);
    At(0xbcefb929a89fbfed, k, 1, 0x63, 0xab172fc987727e4a);
    At(0xab172fc987727e4a, k, 2, 0x00, 0x2ae47d71278c97be);
    Ends(0x2ae47d71278c97be, k);
  }

  /** Then "sleet-1". */
  lemma HashGcNode(k: Bytes)
    requires k == [0x73, 0x6c, 0x65, 0x65, 0x74, 0x2d, 0x31]
    ensures Fnv(0x2ae47d71278c97be, k) == 0x0db7953ae9becf63
  {
    hide Fnv;
    At(0x2ae47d71278c97be, k, 0, 0x73, 0x6ed8f44633e5f157);
    At(0x6ed8f44633e5f157, k, 1, 0x6c, 0x40984e4a2fb8e741);
    At(0x40984e4a2fb8e741, k, 2, 0x65, 0x7bb42c0f1730c22c);
    At(0x7bb42c0f1730c22c, k, 3, 0x65, 0x63e926a467da220b);
    At(0x63e926a467da220b, k, 4, 0x74, 0x9f4f285c77a89dcd);
    At(0x9f4f285c77a89dcd, k, 5, 0x2d, 0x5c1f751f538443a0);
    At(0x5c1f751f538443a0, k, 6, 0x31, 0x0db7953ae9becf63);
    Ends(0x0db7953ae9becf63, k);
  }

  /** Then "compact", which two services share. */
  lemma HashCompact(k: Bytes)
    requires k == [0x63, 0x6f, 0x6d, 0x70, 0x61, 0x63, 0x74]
    ensures Fnv(0x1b62bd69703427b8, k) == 0xffde91ed591f2ecd
  {
    hide Fnv;
    At(0x1b62bd69703427b8, k, 0, 0x63, 0xbcefb529a89fb921);
    At(0xbcefb529a89fb921, k, 1, 0x6f, 0xab0a23c98767df8a);
    At(0xab0a23c98767df8a, k, 2, 0x6d, 0x0a1ab67115817585);
    At(0x0a1ab67115817585, k, 3, 0x70, 0xacd9f7278afb6f4f);
    At(0xacd9f7278afb6f4f, k, 4, 0x61, 0xb1ce2631293deb2a);
    At(0xb1ce2631293deb2a, k, 5, 0x63, 0x5f362e891436cd0b);
    At(0x5f362e891436cd0b, k, 6, 0x74, 0xffde91ed591f2ecd);
    Ends(0xffde91ed591f2ecd, k);
  }

  /** Then "or-coor". */
  lemma HashCoordinator(k: Bytes)
    requires k == [0x6f, 0x72, 0x2d, 0x63, 0x6f, 0x6f, 0x72]
    ensures Fnv(0xffde91ed591f2ecd, k) == 0xb444abdf4851222c
  {
    hide Fnv;
    At(0xffde91ed591f2ecd, k, 0, 0x6f, 0xe660984e6ffc3d46);
    At(0xe660984e6ffc3d46, k, 1, 0x72, 0x72600148499bff5c);
    At(0x72600148499bff5c, k, 2, 0x2d, 0xf5219ed514130d03);
    At(0xf5219ed514130d03, k, 3, 0x63, 0x9b2e44111c5fba20);
    At(0x9b2e44111c5fba20, k, 4, 0x6f, 0x0f57f81336a9943d);
    At(0x0f57f81336a9943d, k, 5, 0x6f, 0xbc0edaa5e2270756);
    At(0xbc0edaa5e2270756, k, 6, 0x72, 0xb444abdf4851222c);
    Ends(0xb444abdf4851222c, k);
  }

  /** Then "dinator" and its NUL. */
  lemma HashDinator(k: Bytes)
    requires k == [0x64, 0x69, 0x6e, 0x61, 0x74, 0x6f, 0x72, 0x00]
    ensures Fnv(0xb444abdf4851222c, k) == 0x9b373745fa58702d
  {
    hide Fnv;
    At(0xb444abdf4851222c, k, 0, 0x64, 0xa1d25467e1dd4058);
    At(0xa1d25467e1dd4058, k, 1, 0x69, 0xd5a59d84caf41343);
    At(0xd5a59d84caf41343, k, 2, 0x6e, 0xfc7dd5a4dcbc9577);
    At(0xfc7dd5a4dcbc9577, k, 3, 0x61, 0xc6671d2314715462);
    At(0xc6671d2314715462, k, 4, 0x74, 0x928a989bbc91e162);
    At(0x928a989bbc91e162, k, 5, 0x6f, 0x93625da16be16917);
    At(0x93625da16be16917, k, 6, 0x72, 0x518e7e4a5006169f);
    At(0x518e7e4a5006169f, k, 7, 0x00, 0x9b373745fa58702d);
    Ends(0x9b373745fa58702d, k);
  }

  /** Then "sleet-1". */
  lemma HashCoordinatorNode(k: Bytes)
    requires k == [0x73, 0x6c, 0x65, 0x65, 0x74, 0x2d, 0x31]
    ensures Fnv(0x9b373745fa58702d, k) == 0xf9bc77ef11433076
  {
    hide Fnv;
    At(0x9b373745fa58702d, k, 0, 0x73, 0x174349e86446efba);
    At(0x174349e86446efba, k, 1, 0x6c, 0xce466be2648988a2);
    At(0xce466be2648988a2, k, 2, 0x65, 0x0b3218b0d5b36a25);
    At(0x0b3218b0d5b36a25, k, 3, 0x65, 0xb98a347b1fdd8ac0);
    At(0xb98a347b1fdd8ac0, k, 4, 0x74, 0x2361e1372572afdc);
    At(0x2361e1372572afdc, k, 5, 0x2d, 0x9201a1b4a1e0f683);
    At(0x9201a1b4a1e0f683, k, 6, 0x31, 0xf9bc77ef11433076);
    Ends(0xf9bc77ef11433076, k);
  }

  /** Then "ion-wor". */
  lemma HashWorkers(k: Bytes)
    requires k == [0x69, 0x6f, 0x6e, 0x2d, 0x77, 0x6f, 0x72]
    ensures Fnv(0xffde91ed591f2ecd, k) == 0x0ac81d03668cdadc
  {
    hide Fnv;
    At(0xffde91ed591f2ecd, k, 0, 0x69, 0xe6609a4e6ffc40ac);
    At(0xe6609a4e6ffc40ac, k, 1, 0x6f, 0x7266f64849a20b59);
    At(0x7266f64849a20b59, k, 2, 0x6e, 0x06ffb3d51e590e75);
    At(0x06ffb3d51e590e75, k, 3, 0x2d, 0x3d8ceb2291535f88);
    At(0x3d8ceb2291535f88, k, 4, 0x77, 0xe9d38abcf0ac1e4d);
    At(0xe9d38abcf0ac1e4d, k, 5, 0x6f, 0xfe92e10cf47733c6);
    At(0xfe92e10cf47733c6, k, 6, 0x72, 0x0ac81d03668cdadc);
    Ends(0x0ac81d03668cdadc, k);
  }

  /** Then "kers" and its NUL. */
  lemma HashKers(k: Bytes)
    requires k == [0x6b, 0x65, 0x72, 0x73, 0x00]
    ensures Fnv(0x0ac81d03668cdadc, k) == 0x1898b4c62a25921d
  {
    hide Fnv;
    At(0x0ac81d03668cdadc, k, 0, 0x6b, 0xdee403c74157a4f5);
    At(0xdee403c74157a4f5, k, 1, 0x65, 0x1516fb9407eca0b0);
    At(0x1516fb9407eca0b0, k, 2, 0x72, 0xc2ae3e89771529a6);
    At(0xc2ae3e89771529a6, k, 3, 0x73, 0xe33e189558f614ef);
    At(0xe33e189558f614ef, k, 4, 0x00, 0x1898b4c62a25921d);
    Ends(0x1898b4c62a25921d, k);
  }

  /** Then "sleet-2". */
  lemma HashWorkersNode(k: Bytes)
    requires k == [0x73, 0x6c, 0x65, 0x65, 0x74, 0x2d, 0x32]
    ensures Fnv(0x1898b4c62a25921d, k) == 0xb6c679bdaed44473
  {
    hide Fnv;
    At(0x1898b4c62a25921d, k, 0, 0x73, 0xf10d9ab99dd7d0ea);
    At(0xf10d9ab99dd7d0ea, k, 1, 0x6c, 0x71ee6f6735b753b2);
    At(0x71ee6f6735b753b2, k, 2, 0x65, 0x4f7b236046837655);
    At(0x4f7b236046837655, k, 3, 0x65, 0x91b34c97d161d390);
    At(0x91b34c97d161d390, k, 4, 0x74, 0xf57f09f8c93b0c6c);
    At(0xf57f09f8c93b0c6c, k, 5, 0x2d, 0x61ea32bdef55d273);
    At(0x61ea32bdef55d273, k, 6, 0x32, 0xb6c679bdaed44473);
    Ends(0xb6c679bdaed44473, k);
  }

  /** Then "mirror" and its NUL. */
  lemma HashMirror(k: Bytes)
    requires k == [0x6d, 0x69, 0x72, 0x72, 0x6f, 0x72, 0x00]
    ensures Fnv(0x1b62bd69703427b8, k) == 0x6ed2229fc08654f1
  {
    hide Fnv;
    At(0x1b62bd69703427b8, k, 0, 0x6d, 0xbcefaf29a89faeef);
    At(0xbcefaf29a89faeef, k, 1, 0x69, 0xaaf529c987558db2);
    At(0xaaf529c987558db2, k, 2, 0x72, 0xd423c170f65fdd40);
    At(0xd423c170f65fdd40, k, 3, 0x72, 0xd89ee4f2a4e4dbf6);
    At(0xd89ee4f2a4e4dbf6, k, 4, 0x6f, 0xfadaa14e30e124fb);
    At(0xfadaa14e30e124fb, k, 5, 0x72, 0x22a4a0dd0e9114cb);
    At(0x22a4a0dd0e9114cb, k, 6, 0x00, 0x6ed2229fc08654f1);
    Ends(0x6ed2229fc08654f1, k);
  }

  /** Then "dr" and its NUL. */
  lemma HashTarget(k: Bytes)
    requires k == [0x64, 0x72, 0x00]
    ensures Fnv(0x6ed2229fc08654f1, k) == 0x4b7d5f43889e26e5
  {
    hide Fnv;
    At(0x6ed2229fc08654f1, k, 0, 0x64, 0xd5656a742441b92f);
    At(0xd5656a742441b92f, k, 1, 0x72, 0xdd0d40599badf907);
    At(0xdd0d40599badf907, k, 2, 0x00, 0x4b7d5f43889e26e5);
    Ends(0x4b7d5f43889e26e5, k);
  }

  /** Then "sleet-1". */
  lemma HashTargetNode(k: Bytes)
    requires k == [0x73, 0x6c, 0x65, 0x65, 0x74, 0x2d, 0x31]
    ensures Fnv(0x4b7d5f43889e26e5, k) == 0xa7057dde1da5335e
  {
    hide Fnv;
    At(0x4b7d5f43889e26e5, k, 0, 0x73, 0xe42f75c124bb90e2);
    At(0xe42f75c124bb90e2, k, 1, 0x6c, 0x7835a5316ab6a14a);
    At(0x7835a5316ab6a14a, k, 2, 0x65, 0xf9c8e1f85453e2dd);
    At(0xf9c8e1f85453e2dd, k, 3, 0x65, 0xc43ab0f74a8a3ea8);
    At(0xc43ab0f74a8a3ea8, k, 4, 0x74, 0xf9f99033a8e8cfd4);
    At(0xf9f99033a8e8cfd4, k, 5, 0x2d, 0xabe000c80399641b);
    At(0xabe000c80399641b, k, 6, 0x31, 0xa7057dde1da5335e);
    Ends(0xa7057dde1da5335e, k);
  }

  lemma AfterDatabase(rest: Bytes)
    ensures Fnv(FNV_OFFSET, DATABASE + [0] + rest) == Fnv(0x1b62bd69703427b8, rest)
  {
    hide Fnv;
    var front: Bytes := [0x73, 0x33, 0x3a, 0x2f, 0x2f, 0x62, 0x2f];
    var back: Bytes := [0x64, 0x62] + [0];
    HashDatabaseFront(front);
    HashDatabase(back);
    Then(FNV_OFFSET, front, back + rest, 0x567b893dc3ae339a);
    Then(0x567b893dc3ae339a, back, rest, 0x1b62bd69703427b8);
    assert DATABASE + [0] + rest == front + (back + rest);
  }

  lemma GcIsFrozen()
    ensures ScoreOf(DATABASE, OfService(Gc), NODE1) == 0x0db7953ae9becf63
  {
    hide Fnv;
    var s := ServiceBytes(Gc) + [0];
    AfterDatabase(s + NODE1);
    assert Prefix(DATABASE, OfService(Gc)) + NODE1 == DATABASE + [0] + (s + NODE1);
    HashGc(s);
    Then(0x1b62bd69703427b8, s, NODE1, 0x2ae47d71278c97be);
    HashGcNode(NODE1);
  }

  lemma CoordinatorIsFrozen()
    ensures ScoreOf(DATABASE, OfService(CompactorCoordinator), NODE1) == 0xf9bc77ef11433076
  {
    hide Fnv;
    var a: Bytes := [0x63, 0x6f, 0x6d, 0x70, 0x61, 0x63, 0x74];
    var b: Bytes := [0x6f, 0x72, 0x2d, 0x63, 0x6f, 0x6f, 0x72];
    var c: Bytes := [0x64, 0x69, 0x6e, 0x61, 0x74, 0x6f, 0x72] + [0];
    AfterDatabase(a + (b + (c + NODE1)));
    assert Prefix(DATABASE, OfService(CompactorCoordinator)) + NODE1 == DATABASE + [0] + (a + (b + (c + NODE1)));
    HashCompact(a);
    HashCoordinator(b);
    HashDinator(c);
    Then(0x1b62bd69703427b8, a, b + (c + NODE1), 0xffde91ed591f2ecd);
    Then(0xffde91ed591f2ecd, b, c + NODE1, 0xb444abdf4851222c);
    Then(0xb444abdf4851222c, c, NODE1, 0x9b373745fa58702d);
    HashCoordinatorNode(NODE1);
  }

  lemma WorkersAreFrozen()
    ensures ScoreOf(DATABASE, OfService(CompactionWorkers), NODE2) == 0xb6c679bdaed44473
  {
    hide Fnv;
    var a: Bytes := [0x63, 0x6f, 0x6d, 0x70, 0x61, 0x63, 0x74];
    var b: Bytes := [0x69, 0x6f, 0x6e, 0x2d, 0x77, 0x6f, 0x72];
    var c: Bytes := [0x6b, 0x65, 0x72, 0x73] + [0];
    AfterDatabase(a + (b + (c + NODE2)));
    assert Prefix(DATABASE, OfService(CompactionWorkers)) + NODE2 == DATABASE + [0] + (a + (b + (c + NODE2)));
    HashCompact(a);
    HashWorkers(b);
    HashKers(c);
    Then(0x1b62bd69703427b8, a, b + (c + NODE2), 0xffde91ed591f2ecd);
    Then(0xffde91ed591f2ecd, b, c + NODE2, 0x0ac81d03668cdadc);
    Then(0x0ac81d03668cdadc, c, NODE2, 0x1898b4c62a25921d);
    HashWorkersNode(NODE2);
  }

  lemma TargetIsFrozen()
    ensures ScoreOf(DATABASE, OfTarget(TARGET), NODE1) == 0xa7057dde1da5335e
  {
    hide Fnv;
    var s, t := ServiceBytes(Mirror) + [0], TARGET + [0];
    AfterDatabase(s + (t + NODE1));
    assert Prefix(DATABASE, OfTarget(TARGET)) + NODE1 == DATABASE + [0] + (s + (t + NODE1));
    HashMirror(s);
    HashTarget(t);
    Then(0x1b62bd69703427b8, s, t + NODE1, 0x6ed2229fc08654f1);
    Then(0x6ed2229fc08654f1, t, NODE1, 0x4b7d5f43889e26e5);
    HashTargetNode(NODE1);
  }

  /** The scores every version of the program gives. */
  lemma ScoresAreFrozen()
    ensures ScoreOf(DATABASE, OfService(Gc), NODE1) == 0x0db7953ae9becf63
    ensures ScoreOf(DATABASE, OfService(CompactorCoordinator), NODE1) == 0xf9bc77ef11433076
    ensures ScoreOf(DATABASE, OfService(CompactionWorkers), NODE2) == 0xb6c679bdaed44473
    ensures ScoreOf(DATABASE, OfTarget(TARGET), NODE1) == 0xa7057dde1da5335e
  {
    hide ScoreOf;
    GcIsFrozen();
    CoordinatorIsFrozen();
    WorkersAreFrozen();
    TargetIsFrozen();
  }
}
