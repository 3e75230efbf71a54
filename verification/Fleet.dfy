/** Who runs what: liveness from heartbeats (src/root.rs), each node's own share
    (src/daemon.rs), and what the operator is shown (src/ops.rs). */
module Fleet {
  import opened Wrappers
  import opened Services
  import opened Sorting
  import opened Placement

  /** One heartbeat object: what its name says, and its age. */
  datatype HeartbeatEntry = HeartbeatEntry(nodeId: Bytes, services: seq<Service>, age: nat)

  datatype NodeView = NodeView(nodeId: Bytes, services: seq<Service>, age: nat)

  /** What the configuration resolves to for one database: its services, how many
      workers, and the names of the mirror targets that apply. */
  datatype Resolved = Resolved(services: seq<Service>, workers: nat, targets: seq<Bytes>)

  datatype Assignment = Assignment(url: Bytes, service: Service, target: Option<Bytes>)

  /* The live view. */

  /** `e` is the youngest heartbeat of its node, the first such when ages tie. */
  predicate YoungestAt(entries: seq<HeartbeatEntry>, k: int) {
    0 <= k < |entries|
    && forall j | 0 <= j < |entries| && entries[j].nodeId == entries[k].nodeId ::
         entries[k].age <= entries[j].age && (j < k ==> entries[k].age < entries[j].age)
  }

  ghost predicate IsYoungest(entries: seq<HeartbeatEntry>, byId: map<Bytes, HeartbeatEntry>) {
    && (forall e | e in entries :: e.nodeId in byId)
    && forall n | n in byId :: exists k :: YoungestAt(entries, k) && entries[k] == byId[n] && byId[n].nodeId == n
  }

  method YoungestPerNode(entries: seq<HeartbeatEntry>) returns (byId: map<Bytes, HeartbeatEntry>)
    ensures IsYoungest(entries, byId)
  {
    hide *;
    byId := map[];
    NoneYet();
    assert entries[..0] == [];
    for i := 0 to |entries|
      invariant IsYoungest(entries[..i], byId)
    {
      var e := entries[i];
      ghost var before := byId;
      if e.nodeId !in byId || byId[e.nodeId].age > e.age {
        byId := byId[e.nodeId := e];
      }
      YoungestStep(entries[..i], e, before, byId);
      assert entries[..i + 1] == entries[..i] + [e];
    }
    assert entries[..|entries|] == entries;
  }

  lemma NoneYet()
    ensures IsYoungest([], map[])
  {
  }

  lemma YoungestStep(seen: seq<HeartbeatEntry>, e: HeartbeatEntry, before: map<Bytes, HeartbeatEntry>,
                     after: map<Bytes, HeartbeatEntry>)
    requires IsYoungest(seen, before)
    requires after == if e.nodeId !in before || before[e.nodeId].age > e.age then before[e.nodeId := e] else before
    ensures IsYoungest(seen + [e], after)
  {
    var all := seen + [e];
    forall n | n in after
      ensures exists k :: YoungestAt(all, k) && all[k] == after[n] && after[n].nodeId == n
    {
      if n in before {
        var k :| YoungestAt(seen, k) && seen[k] == before[n] && before[n].nodeId == n;
        YoungestStays(seen, e, k);
      } else {
        NewNode(seen, e);
      }
    }
  }

  /** The youngest so far stays so unless the next is its node's and younger, and then
      the next is. */
  lemma YoungestStays(seen: seq<HeartbeatEntry>, e: HeartbeatEntry, k: int)
    requires YoungestAt(seen, k)
    ensures (seen + [e])[k] == seen[k] && (seen + [e])[|seen|] == e
    ensures if seen[k].nodeId == e.nodeId && seen[k].age > e.age then YoungestAt(seen + [e], |seen|)
            else YoungestAt(seen + [e], k)
  {
  }

  lemma NewNode(seen: seq<HeartbeatEntry>, e: HeartbeatEntry)
    requires forall d | d in seen :: d.nodeId != e.nodeId
    ensures YoungestAt(seen + [e], |seen|) && (seen + [e])[|seen|] == e
  {
    var all := seen + [e];
    assert forall j | 0 <= j < |seen| :: all[j] == seen[j] && seen[j] in seen;
  }

  /** A live node: its youngest heartbeat is younger than the timeout. */
  ghost predicate IsLiveNode(entries: seq<HeartbeatEntry>, timeout: nat, v: NodeView) {
    exists k :: YoungestAt(entries, k) && entries[k] == HeartbeatEntry(v.nodeId, v.services, v.age) && v.age < timeout
  }

  predicate DistinctIds(nodes: seq<NodeView>) {
    forall i, j | 0 <= i < j < |nodes| :: nodes[i].nodeId != nodes[j].nodeId
  }

  ghost predicate IsView(entries: seq<HeartbeatEntry>, timeout: nat, nodes: seq<NodeView>) {
    DistinctIds(nodes) && forall v :: v in nodes <==> IsLiveNode(entries, timeout, v)
  }

  /** `node_view`. The order is whatever the map gives; nothing depends on it. */
  method ViewOf(entries: seq<HeartbeatEntry>, timeout: nat) returns (nodes: seq<NodeView>)
    ensures IsView(entries, timeout, nodes)
  {
    var byId := YoungestPerNode(entries);
    nodes := [];
    var rest := byId.Keys;
    while rest != {}
      invariant rest <= byId.Keys && DistinctIds(nodes)
      invariant forall v | v in nodes :: v.nodeId in byId.Keys - rest
      invariant forall v :: v in nodes <==> v.nodeId in byId.Keys - rest && v.age < timeout
                                            && byId[v.nodeId] == HeartbeatEntry(v.nodeId, v.services, v.age)
    {
      var n :| n in rest;
      rest := rest - {n};
      var e := byId[n];
      assert e.nodeId == n;
      if e.age < timeout {
        nodes := nodes + [NodeView(e.nodeId, e.services, e.age)];
      }
    }
    ViewIsLive(entries, timeout, byId, nodes);
  }

  lemma OneYoungest(entries: seq<HeartbeatEntry>, j: int, k: int)
    requires YoungestAt(entries, j) && YoungestAt(entries, k) && entries[j].nodeId == entries[k].nodeId
    ensures j == k
  {
  }

  lemma ViewIsLive(entries: seq<HeartbeatEntry>, timeout: nat, byId: map<Bytes, HeartbeatEntry>, nodes: seq<NodeView>)
    requires IsYoungest(entries, byId) && DistinctIds(nodes)
    requires forall v :: v in nodes <==> v.nodeId in byId && v.age < timeout
                                         && byId[v.nodeId] == HeartbeatEntry(v.nodeId, v.services, v.age)
    ensures IsView(entries, timeout, nodes)
  {
    forall v ensures v in nodes <==> IsLiveNode(entries, timeout, v) {
      if v in nodes {
        var k :| YoungestAt(entries, k) && entries[k] == byId[v.nodeId] && byId[v.nodeId].nodeId == v.nodeId;
      }
      if IsLiveNode(entries, timeout, v) {
        var k :| YoungestAt(entries, k) && entries[k] == HeartbeatEntry(v.nodeId, v.services, v.age)
            && v.age < timeout;
        assert entries[k] in entries;
        var j :| YoungestAt(entries, j) && entries[j] == byId[v.nodeId] && byId[v.nodeId].nodeId == v.nodeId;
        OneYoungest(entries, j, k);
      }
    }
  }

  /** Any two views of one list hold the same nodes. */
  lemma ViewsAgree(entries: seq<HeartbeatEntry>, timeout: nat, a: seq<NodeView>, b: seq<NodeView>)
    requires IsView(entries, timeout, a) && IsView(entries, timeout, b)
    ensures forall v :: v in a <==> v in b
  {
  }

  /* Ownership. */

  function Offer(v: NodeView, s: Service): seq<Bytes> {
    if s in v.services then [v.nodeId] else []
  }

  /** The nodes that offer a service. */
  function Candidates(nodes: seq<NodeView>, service: Service): seq<Bytes> {
    if nodes == [] then [] else Offer(nodes[0], service) + Candidates(nodes[1..], service)
  }

  lemma {:induction false} CandidatesAre(nodes: seq<NodeView>, service: Service)
    ensures forall n :: n in Candidates(nodes, service) <==>
              exists v :: v in nodes && v.nodeId == n && service in v.services
    ensures DistinctIds(nodes) ==> Distinct(Candidates(nodes, service))
  {
    if nodes != [] {
      CandidatesAre(nodes[1..], service);
      assert nodes == [nodes[0]] + nodes[1..];
      var rest := Candidates(nodes[1..], service);
      if DistinctIds(nodes) {
        assert DistinctIds(nodes[1..]);
        assert forall v | v in nodes[1..] :: v.nodeId != nodes[0].nodeId;
        assert nodes[0].nodeId !in rest;
      }
    }
  }

  function CountOf(service: Service, r: Resolved): nat {
    if service.CompactionWorkers? then r.workers else 1
  }

  /** Whether `node` is assigned `a` when the live nodes are `nodes`. */
  predicate Owns(node: Bytes, nodes: seq<NodeView>, dbs: map<Bytes, Resolved>, a: Assignment) {
    && a.url in dbs && a.service in dbs[a.url].services
    && var candidates := Candidates(nodes, a.service);
       match a.target
       case Some(t) => a.service.Mirror? && t in dbs[a.url].targets && OwnerTarget(a.url, t, candidates) == Some(node)
       case None => !a.service.Mirror?
                    && node in Owners(a.url, OfService(a.service), CountOf(a.service, dbs[a.url]), candidates)
  }

  /** A node always counts itself live. */
  function WithSelf(node: Bytes, services: seq<Service>, nodes: seq<NodeView>): seq<NodeView> {
    if exists v :: v in nodes && v.nodeId == node then nodes else nodes + [NodeView(node, services, 0)]
  }

  method CandidatesFor(nodes: seq<NodeView>, service: Service) returns (ids: seq<Bytes>)
    ensures ids == Candidates(nodes, service)
  {
    ids := [];
    var i := |nodes|;
    while i > 0
      invariant 0 <= i <= |nodes|
      invariant ids == Candidates(nodes[i..], service)
    {
      i := i - 1;
      assert nodes[i..][1..] == nodes[i + 1..];
      ids := Offer(nodes[i], service) + ids;
    }
    assert nodes[0..] == nodes;
  }

  /** The assignments of one service of one database. */
  predicate ServiceKeys(a: Assignment, url: Bytes, services: seq<Service>) {
    a.url == url && a.service in services
  }

  /** `owned_assignments`. */
  method OwnedAssignments(node: Bytes, services: seq<Service>, entries: seq<HeartbeatEntry>, timeout: nat,
                          dbs: map<Bytes, Resolved>)
    returns (owned: map<Assignment, Resolved>, ghost view: seq<NodeView>)
    ensures IsView(entries, timeout, view)
    ensures forall a :: a in owned <==> Owns(node, WithSelf(node, services, view), dbs, a)
    ensures forall a | a in owned :: a.url in dbs && owned[a] == dbs[a.url]
  {
    var nodes := ViewOf(entries, timeout);
    view := nodes;
    nodes := WithSelf(node, services, nodes);
    owned := map[];
    var rest := dbs.Keys;
    while rest != {}
      invariant rest <= dbs.Keys
      invariant forall a :: a in owned <==> Owns(node, nodes, dbs, a) && a.url !in rest
      invariant forall a | a in owned :: a.url in dbs && owned[a] == dbs[a.url]
    {
      var url :| url in rest;
      owned := OwnedOf(node, nodes, dbs, url, owned);
      rest := rest - {url};
    }
  }

  /** One database's part of the share. */
  method OwnedOf(node: Bytes, nodes: seq<NodeView>, dbs: map<Bytes, Resolved>, url: Bytes,
                 before: map<Assignment, Resolved>)
    returns (owned: map<Assignment, Resolved>)
    requires url in dbs && forall a | a in before :: a.url != url
    ensures forall a :: a in owned <==> a in before || (a.url == url && Owns(node, nodes, dbs, a))
    ensures forall a | a in owned :: owned[a] == dbs[url] || (a in before && owned[a] == before[a])
    ensures forall a | a in owned && a.url != url :: owned[a] == before[a]
  {
    hide Owns, Owners, OwnerTarget, Candidates;
    var resolved := dbs[url];
    owned := before;
    for i := 0 to |resolved.services|
      invariant forall a :: a in owned <==>
                  a in before || (ServiceKeys(a, url, resolved.services[..i]) && Owns(node, nodes, dbs, a))
      invariant forall a | a in owned :: owned[a] == resolved || (a in before && owned[a] == before[a])
      invariant forall a | a in owned && a.url != url :: owned[a] == before[a]
    {
      var service := resolved.services[i];
      assert resolved.services[..i + 1] == resolved.services[..i] + [service];
      var candidates := CandidatesFor(nodes, service);
      if !service.Mirror? { OwnsService(node, nodes, dbs, url, service); }
      if service.Mirror? {
        owned := OwnedTargets(node, nodes, dbs, url, candidates, owned);
      } else if node in Owners(url, OfService(service), CountOf(service, resolved), candidates) {
        owned := owned[Assignment(url, service, None) := resolved];
      }
    }
    assert resolved.services[..|resolved.services|] == resolved.services;
    OwnsListed(node, nodes, dbs);
  }

  /** Which assignments of a service are owned. */
  lemma OwnsService(node: Bytes, nodes: seq<NodeView>, dbs: map<Bytes, Resolved>, url: Bytes, service: Service)
    requires url in dbs && service in dbs[url].services && !service.Mirror?
    ensures forall a: Assignment | a.url == url && a.service == service :: Owns(node, nodes, dbs, a) <==>
              a == Assignment(url, service, None)
              && node in Owners(url, OfService(service), CountOf(service, dbs[url]), Candidates(nodes, service))
  {
  }

  lemma OwnsListed(node: Bytes, nodes: seq<NodeView>, dbs: map<Bytes, Resolved>)
    ensures forall a: Assignment | Owns(node, nodes, dbs, a) :: a.url in dbs && a.service in dbs[a.url].services
  {
  }

  /** One database's mirror targets. */
  method OwnedTargets(node: Bytes, nodes: seq<NodeView>, dbs: map<Bytes, Resolved>, url: Bytes,
                      candidates: seq<Bytes>, before: map<Assignment, Resolved>)
    returns (owned: map<Assignment, Resolved>)
    requires url in dbs && Mirror in dbs[url].services && candidates == Candidates(nodes, Mirror)
    ensures forall a :: a in owned <==>
              a in before || (a.url == url && a.service.Mirror? && Owns(node, nodes, dbs, a))
    ensures forall a | a in owned && a.url != url :: owned[a] == before[a]
    ensures forall a | a in owned :: owned[a] == dbs[url] || (a in before && owned[a] == before[a])
  {
    hide Owns, Candidates, OwnerTarget;
    var resolved := dbs[url];
    owned := before;
    for k := 0 to |resolved.targets|
      invariant forall a :: a in owned <==>
                  a in before || (a.url == url && a.service.Mirror? && a.target.Some?
                                  && a.target.value in resolved.targets[..k] && Owns(node, nodes, dbs, a))
      invariant forall a | a in owned :: owned[a] == resolved || (a in before && owned[a] == before[a])
      invariant forall a | a in owned && a.url != url :: owned[a] == before[a]
    {
      var t := resolved.targets[k];
      OwnsTarget(node, nodes, dbs, url, t);
      assert resolved.targets[..k + 1] == resolved.targets[..k] + [t];
      if OwnerTarget(url, t, candidates) == Some(node) {
        owned := owned[Assignment(url, Mirror, Some(t)) := resolved];
      }
    }
    assert resolved.targets[..|resolved.targets|] == resolved.targets;
    MirrorOwnsListed(node, nodes, dbs);
  }

  lemma OwnsTarget(node: Bytes, nodes: seq<NodeView>, dbs: map<Bytes, Resolved>, url: Bytes, t: Bytes)
    requires url in dbs && Mirror in dbs[url].services && t in dbs[url].targets
    ensures Owns(node, nodes, dbs, Assignment(url, Mirror, Some(t))) <==>
              OwnerTarget(url, t, Candidates(nodes, Mirror)) == Some(node)
  {
  }

  lemma MirrorOwnsListed(node: Bytes, nodes: seq<NodeView>, dbs: map<Bytes, Resolved>)
    ensures forall a: Assignment | Owns(node, nodes, dbs, a) && a.service.Mirror? ::
              a.url in dbs && a.target.Some? && a.target.value in dbs[a.url].targets
  {
  }

  /* One list seen by all. */

  /** The nodes of `nodes` that are assigned `a`, each deciding for itself. */
  function OwnersOf(nodes: seq<NodeView>, dbs: map<Bytes, Resolved>, a: Assignment): set<Bytes> {
    set v | v in nodes && Owns(v.nodeId, WithSelf(v.nodeId, v.services, nodes), dbs, a) :: v.nodeId
  }

  lemma {:induction false} DistinctSize(s: seq<Bytes>)
    requires Distinct(s)
    ensures |set x | x in s| == |s|
  {
    if s != [] {
      DistinctSize(s[1..]);
      assert s == [s[0]] + s[1..];
      assert (set x | x in s) == {s[0]} + set x | x in s[1..];
      assert s[0] !in s[1..];
    }
  }

  lemma {:induction false} SharedOwners(nodes: seq<NodeView>, dbs: map<Bytes, Resolved>, a: Assignment)
    requires DistinctIds(nodes) && a.url in dbs && a.service in dbs[a.url].services && !a.service.Mirror?
    requires a.target.None?
    ensures OwnersOf(nodes, dbs, a) ==
            set n | n in Owners(a.url, OfService(a.service), CountOf(a.service, dbs[a.url]),
                                Candidates(nodes, a.service))
  {
    var candidates := Candidates(nodes, a.service);
    CandidatesAre(nodes, a.service);
    OwnersAreCapped(a.url, OfService(a.service), CountOf(a.service, dbs[a.url]), candidates);
    forall n | n in Owners(a.url, OfService(a.service), CountOf(a.service, dbs[a.url]), candidates)
      ensures n in OwnersOf(nodes, dbs, a)
    {
      var v :| v in nodes && v.nodeId == n;
      assert WithSelf(n, v.services, nodes) == nodes;
    }
    forall v | v in nodes ensures WithSelf(v.nodeId, v.services, nodes) == nodes {}
  }

  /** When every node sees all of them live, a service has min(count, offering nodes)
      owners. */
  lemma ServiceHasItsOwners(nodes: seq<NodeView>, dbs: map<Bytes, Resolved>, a: Assignment)
    requires DistinctIds(nodes) && a.url in dbs && a.service in dbs[a.url].services && !a.service.Mirror?
    requires a.target.None?
    ensures |OwnersOf(nodes, dbs, a)| ==
            Min(if a.service == CompactionWorkers then dbs[a.url].workers else 1, |Candidates(nodes, a.service)|)
  {
    var count := CountOf(a.service, dbs[a.url]);
    SharedOwners(nodes, dbs, a);
    CandidatesAre(nodes, a.service);
    OwnersAreCapped(a.url, OfService(a.service), count, Candidates(nodes, a.service));
    DistinctSize(Owners(a.url, OfService(a.service), count, Candidates(nodes, a.service)));
  }

  lemma TargetOwnerIsCandidate(url: Bytes, target: Bytes, candidates: seq<Bytes>)
    ensures OwnerTarget(url, target, candidates).None? <==> candidates == []
    ensures OwnerTarget(url, target, candidates).Some? ==> OwnerTarget(url, target, candidates).value in candidates
  {
    var ranked := Rank(url, OfTarget(target), candidates);
    if ranked != [] {
      assert ranked[0] in multiset(ranked);
    }
  }

  /** ... and a mirror target exactly one, if any node offers mirroring. */
  lemma {:induction false} TargetHasOneOwner(nodes: seq<NodeView>, dbs: map<Bytes, Resolved>, url: Bytes, t: Bytes)
    requires DistinctIds(nodes) && url in dbs && Mirror in dbs[url].services && t in dbs[url].targets
    ensures var owners := OwnersOf(nodes, dbs, Assignment(url, Mirror, Some(t)));
            match OwnerTarget(url, t, Candidates(nodes, Mirror))
            case None => owners == {} && Candidates(nodes, Mirror) == []
            case Some(n) => owners == {n}
  {
    var candidates := Candidates(nodes, Mirror);
    CandidatesAre(nodes, Mirror);
    TargetOwnerIsCandidate(url, t, candidates);
    forall v | v in nodes ensures WithSelf(v.nodeId, v.services, nodes) == nodes {}
    if candidates != [] {
      var n := OwnerTarget(url, t, candidates).value;
      var v :| v in nodes && v.nodeId == n;
      assert Owns(v.nodeId, WithSelf(v.nodeId, v.services, nodes), dbs, Assignment(url, Mirror, Some(t)));
    }
  }

  /* What status shows. */

  datatype ServicePlacement = ServicePlacement(service: Service, target: Option<Bytes>, nodes: seq<Bytes>)

  /** The placement loop of `status`, for one database. */
  method PlacementsOf(nodes: seq<NodeView>, url: Bytes,
                      resolved: Resolved) returns (placements: seq<ServicePlacement>)
    ensures forall p :: p in placements <==> Shown(nodes, url, resolved, p)
  {
    hide Shown, Owners, Candidates;
    placements := [];
    for i := 0 to |resolved.services|
      invariant forall p :: p in placements <==> p.service in resolved.services[..i] && Shown(nodes, url, resolved, p)
    {
      var service := resolved.services[i];
      assert resolved.services[..i + 1] == resolved.services[..i] + [service];
      var candidates := CandidatesFor(nodes, service);
      ShownService(nodes, url, resolved, service);
      if service.Mirror? {
        var targets := TargetPlacements(nodes, url, resolved, candidates);
        placements := placements + targets;
      } else {
        var owners := Owners(url, OfService(service), CountOf(service, resolved), candidates);
        placements := placements + [ServicePlacement(service, None, owners)];
      }
    }
    assert resolved.services[..|resolved.services|] == resolved.services;
    ShownListed(nodes, url, resolved);
  }

  method TargetPlacements(nodes: seq<NodeView>, url: Bytes, resolved: Resolved, candidates: seq<Bytes>)
    returns (placements: seq<ServicePlacement>)
    requires Mirror in resolved.services && candidates == Candidates(nodes, Mirror)
    ensures forall p :: p in placements <==> p.service.Mirror? && Shown(nodes, url, resolved, p)
  {
    hide OwnerTarget, Candidates, Owners;
    placements := [];
    for k := 0 to |resolved.targets|
      invariant forall p :: p in placements <==>
                  p.service.Mirror? && p.target.Some? && p.target.value in resolved.targets[..k]
                  && Shown(nodes, url, resolved, p)
    {
      var t := resolved.targets[k];
      assert resolved.targets[..k + 1] == resolved.targets[..k] + [t];
      var owner := OwnerTarget(url, t, candidates);
      placements := placements + [ServicePlacement(Mirror, Some(t), if owner.Some? then [owner.value] else [])];
    }
    assert resolved.targets[..|resolved.targets|] == resolved.targets;
  }

  lemma ShownService(nodes: seq<NodeView>, url: Bytes, resolved: Resolved, service: Service)
    requires service in resolved.services
    ensures !service.Mirror? ==>
              forall p: ServicePlacement | p.service == service :: Shown(nodes, url, resolved, p) <==>
                p == ServicePlacement(service, None,
                       Owners(url, OfService(service), CountOf(service, resolved), Candidates(nodes, service)))
  {
  }

  lemma ShownListed(nodes: seq<NodeView>, url: Bytes, resolved: Resolved)
    ensures forall p: ServicePlacement | Shown(nodes, url, resolved, p) :: p.service in resolved.services
  {
  }

  /** A line of the status of one database. */
  predicate Shown(nodes: seq<NodeView>, url: Bytes, resolved: Resolved, p: ServicePlacement) {
    && p.service in resolved.services
    && var candidates := Candidates(nodes, p.service);
       match p.target
       case None => !p.service.Mirror?
                    && p.nodes == Owners(url, OfService(p.service), CountOf(p.service, resolved), candidates)
       case Some(t) => p.service.Mirror? && t in resolved.targets
                       && p.nodes == match OwnerTarget(url, t, candidates) { case None => [] case Some(n) => [n] }
  }

  /** Status shows exactly the nodes that consider themselves assigned. */
  lemma {:induction false} StatusShowsTheOwners(nodes: seq<NodeView>, dbs: map<Bytes, Resolved>, url: Bytes,
        p: ServicePlacement)
    requires DistinctIds(nodes) && url in dbs && Shown(nodes, url, dbs[url], p)
    ensures (set n | n in p.nodes) == OwnersOf(nodes, dbs, Assignment(url, p.service, p.target))
  {
    match p.target
    case None => SharedOwners(nodes, dbs, Assignment(url, p.service, None));
    case Some(t) => TargetHasOneOwner(nodes, dbs, url, t);
  }

  /* One heartbeat list, read by everyone for themselves. */

  lemma CandidatesAgree(a: seq<NodeView>, b: seq<NodeView>, s: Service)
    requires DistinctIds(a) && DistinctIds(b) && forall v :: v in a <==> v in b
    ensures Distinct(Candidates(a, s)) && Distinct(Candidates(b, s))
    ensures forall n :: n in Candidates(a, s) <==> n in Candidates(b, s)
  {
    CandidatesAre(a, s);
    CandidatesAre(b, s);
  }

  /** What a node owns does not depend on the order of its view. */
  lemma OwnsIgnoresOrder(node: Bytes, a: seq<NodeView>, b: seq<NodeView>, dbs: map<Bytes, Resolved>, asg: Assignment)
    requires DistinctIds(a) && DistinctIds(b) && forall v :: v in a <==> v in b
    ensures Owns(node, a, dbs, asg) <==> Owns(node, b, dbs, asg)
  {
    hide Candidates, Rank;
    CandidatesAgree(a, b, asg.service);
    var slot := if asg.target.Some? then OfTarget(asg.target.value) else OfService(asg.service);
    RankIgnoresOrder(asg.url, slot, Candidates(a, asg.service), Candidates(b, asg.service));
  }

  /** ... nor does a line of the status. */
  lemma ShownIgnoresOrder(a: seq<NodeView>, b: seq<NodeView>, url: Bytes, resolved: Resolved, p: ServicePlacement)
    requires DistinctIds(a) && DistinctIds(b) && forall v :: v in a <==> v in b
    ensures Shown(a, url, resolved, p) <==> Shown(b, url, resolved, p)
  {
    hide Candidates, Rank;
    CandidatesAgree(a, b, p.service);
    var slot := if p.target.Some? then OfTarget(p.target.value) else OfService(p.service);
    RankIgnoresOrder(url, slot, Candidates(a, p.service), Candidates(b, p.service));
  }

  /** Every live node has read the list and computed a view of its own; so has the
      operator's status command. */
  ghost predicate AllRead(entries: seq<HeartbeatEntry>, timeout: nat, views: map<Bytes, seq<NodeView>>,
                          shown: seq<NodeView>) {
    && IsView(entries, timeout, shown) && (forall n | n in views :: IsView(entries, timeout, views[n]))
    && forall n :: n in views <==> Lists(shown, n)
  }

  /** The nodes assigned `a`, each by its own view, counting itself live. */
  function OwnersAcross(views: map<Bytes, seq<NodeView>>, offers: map<Bytes, seq<Service>>, dbs: map<Bytes, Resolved>,
                        a: Assignment): set<Bytes>
  {
    set n | n in views && Owns(n, WithSelf(n, if n in offers then offers[n] else [], views[n]), dbs, a)
  }

  predicate Lists(nodes: seq<NodeView>, n: Bytes) {
    exists v :: v in nodes && v.nodeId == n
  }

  lemma OwnersOfAre(nodes: seq<NodeView>, dbs: map<Bytes, Resolved>, a: Assignment, n: Bytes)
    ensures n in OwnersOf(nodes, dbs, a) <==> Lists(nodes, n) && Owns(n, nodes, dbs, a)
  {
    hide Owns;
    assert forall v | v in nodes :: WithSelf(v.nodeId, v.services, nodes) == nodes;
  }

  /** A listed node by its own view owns what it owns by another's. */
  lemma OwnViewOwns(entries: seq<HeartbeatEntry>, timeout: nat, own: seq<NodeView>, shown: seq<NodeView>, n: Bytes,
                    services: seq<Service>, dbs: map<Bytes, Resolved>, a: Assignment)
    requires IsView(entries, timeout, own) && IsView(entries, timeout, shown) && Lists(shown, n)
    ensures Owns(n, WithSelf(n, services, own), dbs, a) <==> Owns(n, shown, dbs, a)
  {
    hide Owns, IsLiveNode;
    ViewsAgree(entries, timeout, own, shown);
    OwnsIgnoresOrder(n, own, shown, dbs, a);
    var v :| v in shown && v.nodeId == n;
    assert v in own;
  }

  lemma AcrossIsShared(entries: seq<HeartbeatEntry>, timeout: nat, views: map<Bytes, seq<NodeView>>,
                       shown: seq<NodeView>, offers: map<Bytes, seq<Service>>, dbs: map<Bytes, Resolved>, a: Assignment)
    requires AllRead(entries, timeout, views, shown)
    ensures OwnersAcross(views, offers, dbs, a) == OwnersOf(shown, dbs, a)
  {
    hide Owns, IsView, WithSelf, OwnersOf;
    forall n
      ensures n in OwnersAcross(views, offers, dbs, a) <==> n in OwnersOf(shown, dbs, a)
    {
      OwnersOfAre(shown, dbs, a, n);
      if n in views {
        OwnViewOwns(entries, timeout, views[n], shown, n, if n in offers then offers[n] else [], dbs, a);
      }
    }
  }

  /** The live nodes the heartbeat list shows as offering a service. */
  ghost function LiveOffering(entries: seq<HeartbeatEntry>, timeout: nat, s: Service): set<Bytes> {
    set e | e in entries && s in e.services
        && IsLiveNode(entries, timeout, NodeView(e.nodeId, e.services, e.age)) :: e.nodeId
  }

  lemma OfferingAre(entries: seq<HeartbeatEntry>, timeout: nat, nodes: seq<NodeView>, s: Service)
    requires IsView(entries, timeout, nodes)
    ensures LiveOffering(entries, timeout, s) == set n | n in Candidates(nodes, s)
    ensures |LiveOffering(entries, timeout, s)| == |Candidates(nodes, s)|
  {
    CandidatesAre(nodes, s);
    forall n | n in Candidates(nodes, s) ensures n in LiveOffering(entries, timeout, s) {
      var v :| v in nodes && v.nodeId == n && s in v.services;
      assert IsLiveNode(entries, timeout, v);
      var k :| YoungestAt(entries, k) && entries[k] == HeartbeatEntry(v.nodeId, v.services, v.age) && v.age < timeout;
      assert entries[k] in entries;
    }
    DistinctSize(Candidates(nodes, s));
  }

  /** One list, every node deciding by its own view of it: a service has exactly
      min(count, live offering nodes) owners. */
  lemma {:induction false} ListGivesServiceOwners(entries: seq<HeartbeatEntry>, timeout: nat,
                                                  views: map<Bytes, seq<NodeView>>, shown: seq<NodeView>,
                                                  offers: map<Bytes, seq<Service>>, dbs: map<Bytes, Resolved>,
                                                  a: Assignment)
    requires AllRead(entries, timeout, views, shown)
    requires a.url in dbs && a.service in dbs[a.url].services && !a.service.Mirror? && a.target.None?
    ensures |OwnersAcross(views, offers, dbs, a)| ==
            Min(if a.service == CompactionWorkers then dbs[a.url].workers else 1,
                |LiveOffering(entries, timeout, a.service)|)
  {
    hide Owns, LiveOffering, Candidates, IsLiveNode;
    AcrossIsShared(entries, timeout, views, shown, offers, dbs, a);
    OfferingAre(entries, timeout, shown, a.service);
    ServiceHasItsOwners(shown, dbs, a);
  }

  /** ... and a mirror target exactly one, if any live node offers mirroring. */
  lemma {:induction false} ListGivesTargetOwner(entries: seq<HeartbeatEntry>, timeout: nat,
                                                views: map<Bytes, seq<NodeView>>, shown: seq<NodeView>,
                                                offers: map<Bytes, seq<Service>>, dbs: map<Bytes, Resolved>,
                                                url: Bytes, t: Bytes)
    requires AllRead(entries, timeout, views, shown)
    requires url in dbs && Mirror in dbs[url].services && t in dbs[url].targets
    ensures |OwnersAcross(views, offers, dbs, Assignment(url, Mirror, Some(t)))| ==
            if LiveOffering(entries, timeout, Mirror) == {} then 0 else 1
  {
    hide Owns, LiveOffering, IsLiveNode;
    AcrossIsShared(entries, timeout, views, shown, offers, dbs, Assignment(url, Mirror, Some(t)));
    OfferingAre(entries, timeout, shown, Mirror);
    TargetHasOneOwner(shown, dbs, url, t);
    TargetOwnerIsCandidate(url, t, Candidates(shown, Mirror));
  }

  /** ... and status, by its own view, shows exactly those. */
  lemma ListGivesStatus(entries: seq<HeartbeatEntry>, timeout: nat, views: map<Bytes, seq<NodeView>>,
                        shown: seq<NodeView>, offers: map<Bytes, seq<Service>>,
                        dbs: map<Bytes, Resolved>, url: Bytes, p: ServicePlacement)
    requires AllRead(entries, timeout, views, shown) && url in dbs && Shown(shown, url, dbs[url], p)
    ensures (set n | n in p.nodes) == OwnersAcross(views, offers, dbs, Assignment(url, p.service, p.target))
  {
    hide Owns, Shown, IsLiveNode;
    AcrossIsShared(entries, timeout, views, shown, offers, dbs, Assignment(url, p.service, p.target));
    StatusShowsTheOwners(shown, dbs, url, p);
  }

  /* Nodes that read themselves as stale. */

  /** One list, seen by every running node, in which only running nodes are live and
      as what they are. Running nodes may be missing from it. */
  ghost predicate OnlyRunningListed(nodes: seq<NodeView>, running: map<Bytes, seq<Service>>) {
    DistinctIds(nodes) && forall v | v in nodes :: v.nodeId in running && v.services == running[v.nodeId]
  }

  predicate IsOffered(a: Assignment, dbs: map<Bytes, Resolved>) {
    && a.url in dbs && a.service in dbs[a.url].services && (a.service.Mirror? <==> a.target.Some?)
    && (a.target.Some? ==> a.target.value in dbs[a.url].targets) && CountOf(a.service, dbs[a.url]) > 0
  }

  lemma TopOwns(node: Bytes, view: seq<NodeView>, dbs: map<Bytes, Resolved>, a: Assignment)
    requires IsOffered(a, dbs) && DistinctIds(view)
    requires Candidates(view, a.service) != []
    requires var slot := if a.target.Some? then OfTarget(a.target.value) else OfService(a.service);
             Rank(a.url, slot, Candidates(view, a.service))[0] == node
    ensures Owns(node, view, dbs, a)
  {
    if a.target.None? {
      var owners := Owners(a.url, OfService(a.service), CountOf(a.service, dbs[a.url]), Candidates(view, a.service));
      assert owners[0] == node;
    }
  }

  /** Self-inclusion leaves nothing unowned that a running node offers. */
  lemma {:induction false} NothingIsUnowned(nodes: seq<NodeView>, running: map<Bytes, seq<Service>>,
        dbs: map<Bytes, Resolved>,
                         a: Assignment, offering: Bytes) returns (owner: Bytes)
    requires OnlyRunningListed(nodes, running) && IsOffered(a, dbs)
    requires offering in running && a.service in running[offering]
    ensures owner in running && Owns(owner, WithSelf(owner, running[owner], nodes), dbs, a)
  {
    var slot := if a.target.Some? then OfTarget(a.target.value) else OfService(a.service);
    CandidatesAre(nodes, a.service);
    var candidates := Candidates(nodes, a.service);
    var ranked := Rank(a.url, slot, candidates);
    if candidates != [] {
      owner := ranked[0];
      SortMembers(Order(a.url, slot), candidates);
      assert owner in candidates;
      assert WithSelf(owner, running[owner], nodes) == nodes;
      TopOwns(owner, nodes, dbs, a);
    } else {
      owner := offering;
      assert forall v | v in nodes :: v.nodeId in candidates <==> a.service in v.services;
      SelfStands(nodes, running, a, offering);
      var view := WithSelf(owner, running[owner], nodes);
      assert Rank(a.url, slot, [owner]) == [owner];
      TopOwns(owner, view, dbs, a);
    }
  }

  lemma SelfViewsAgree(own: seq<NodeView>, shown: seq<NodeView>, n: Bytes, services: seq<Service>)
    requires DistinctIds(own) && DistinctIds(shown) && forall v :: v in own <==> v in shown
    ensures var a, b := WithSelf(n, services, own), WithSelf(n, services, shown);
            DistinctIds(a) && DistinctIds(b) && forall v :: v in a <==> v in b
  {
  }

  /** ... also when every running node reads the list for itself. */
  lemma {:induction false} ListLeavesNothingUnowned(entries: seq<HeartbeatEntry>, timeout: nat, nodes: seq<NodeView>,
                                 views: map<Bytes, seq<NodeView>>, running: map<Bytes, seq<Service>>,
                                 dbs: map<Bytes, Resolved>, a: Assignment, offering: Bytes) returns (owner: Bytes)
    requires IsView(entries, timeout, nodes) && OnlyRunningListed(nodes, running) && IsOffered(a, dbs)
    requires views.Keys == running.Keys && forall n | n in views :: IsView(entries, timeout, views[n])
    requires offering in running && a.service in running[offering]
    ensures owner in running && Owns(owner, WithSelf(owner, running[owner], views[owner]), dbs, a)
  {
    hide Owns, IsLiveNode, WithSelf;
    owner := NothingIsUnowned(nodes, running, dbs, a, offering);
    ViewsAgree(entries, timeout, views[owner], nodes);
    SelfViewsAgree(views[owner], nodes, owner, running[owner]);
    OwnsIgnoresOrder(owner, WithSelf(owner, running[owner], views[owner]),
                     WithSelf(owner, running[owner], nodes), dbs, a);
  }

  lemma {:induction false} CandidatesAppend(nodes: seq<NodeView>, v: NodeView, s: Service)
    ensures Candidates(nodes + [v], s) == Candidates(nodes, s) + Offer(v, s)
  {
    var all := nodes + [v];
    if nodes == [] {
      assert all == [v] && Candidates(all, s) == Offer(v, s) + Candidates(all[1..], s);
    } else {
      CandidatesAppend(nodes[1..], v, s);
      assert all[0] == nodes[0] && all[1..] == nodes[1..] + [v];
      hide Offer;
      var one, rest, last := Offer(nodes[0], s), Candidates(nodes[1..], s), Offer(v, s);
      assert one + (rest + last) == (one + rest) + last;
    }
  }

  lemma SelfStands(nodes: seq<NodeView>, running: map<Bytes, seq<Service>>, a: Assignment, me: Bytes)
    requires OnlyRunningListed(nodes, running) && Candidates(nodes, a.service) == []
    requires me in running && a.service in running[me]
    ensures var view := WithSelf(me, running[me], nodes);
            DistinctIds(view) && Candidates(view, a.service) == [me]
  {
    CandidatesAre(nodes, a.service);
    forall v | v in nodes ensures v.nodeId != me {
      assert a.service !in v.services by {
        assert v.nodeId !in Candidates(nodes, a.service);
      }
    }
    CandidatesAppend(nodes, NodeView(me, running[me], 0), a.service);
  }
}
