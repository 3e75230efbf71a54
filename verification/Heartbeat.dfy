/** Heartbeat object names (src/heartbeat.rs): a node id and the letters of the services
    it offers. Letters sort differently from services. */
module Heartbeat {
  import opened Wrappers
  import opened Services
  import opened Sorting
  import Names

  function Letter(s: Service): char {
    match s
    case Gc => 'g'
    case CompactorCoordinator => 'c'
    case CompactionWorkers => 'w'
    case Mirror => 'm'
  }

  function FromLetter(c: char): Option<Service> {
    if c == 'g' then Some(Gc)
    else if c == 'c' then Some(CompactorCoordinator)
    else if c == 'w' then Some(CompactionWorkers)
    else if c == 'm' then Some(Mirror)
    else None
  }

  /** A service's place in canonical order. */
  function Place(s: Service): nat {
    match s
    case Gc => 0
    case CompactorCoordinator => 1
    case CompactionWorkers => 2
    case Mirror => 3
  }

  const CHAR_ORDER: (char, char) -> bool := (a, b) => a <= b
  const SERVICE_ORDER: (Service, Service) -> bool := (a, b) => Place(a) <= Place(b)

  function LettersOf(services: seq<Service>): string {
    if services == [] then [] else [Letter(services[0])] + LettersOf(services[1..])
  }

  /** Drop every element equal to its predecessor. */
  function Dedup(s: string): string {
    if |s| < 2 then s
    else if s[0] == s[1] then Dedup(s[1..])
    else [s[0]] + Dedup(s[1..])
  }

  /** `object_name`. */
  function ObjectName(node: string, services: seq<Service>): string {
    node + "." + Dedup(Sort(CHAR_ORDER, LettersOf(services))) + ".json"
  }

  /** Unknown letters are skipped: a newer node's services do not hide it. */
  function ServicesOf(letters: string): seq<Service> {
    if letters == [] then []
    else (match FromLetter(letters[0]) case Some(s) => [s] case None => []) + ServicesOf(letters[1..])
  }

  /** Split at the last dot. */
  function SplitLast(s: string): (r: Option<(string, string)>)
    ensures r.None? <==> '.' !in s
    ensures r.Some? ==> s == r.value.0 + "." + r.value.1 && '.' !in r.value.1
  {
    if s == [] then None
    else
      var last := s[|s| - 1];
      var front := s[..|s| - 1];
      assert s == front + [last];
      if last == '.' then Some((front, []))
      else match SplitLast(front)
        case None => None
        case Some((a, b)) => Some((a, b + [last]))
  }

  /** `parse_object_name`. */
  function ParseObjectName(name: string): Option<(string, seq<Service>)> {
    match Names.StripSuffix(name, ".json")
    case None => None
    case Some(stem) =>
      match SplitLast(stem)
      case None => None
      case Some((node, letters)) =>
        if node == [] then None else Some((node, Sort(SERVICE_ORDER, ServicesOf(letters))))
  }

  lemma OrdersAreTotal()
    ensures TotalOrder(CHAR_ORDER) && TotalOrder(SERVICE_ORDER)
  {
  }

  lemma {:induction false} DedupSorted(s: string)
    requires Sorted(CHAR_ORDER, s)
    ensures Distinct(Dedup(s)) && Sorted(CHAR_ORDER, Dedup(s))
    ensures forall c :: c in Dedup(s) <==> c in s
    ensures s != [] ==> Dedup(s) != [] && Dedup(s)[0] == s[0]
  {
    if |s| >= 2 {
      assert s == [s[0]] + s[1..];
      DedupSorted(s[1..]);
      if s[0] != s[1] {
        forall c | c in Dedup(s[1..]) ensures s[0] < c {
          assert c in s[1..];
        }
      }
    }
  }

  lemma {:induction false} LettersAre(services: seq<Service>)
    ensures forall s :: Letter(s) in LettersOf(services) <==> s in services
    ensures '.' !in LettersOf(services)
  {
    if services != [] {
      LettersAre(services[1..]);
      assert services == [services[0]] + services[1..];
    }
  }

  lemma {:induction false} ServicesAre(letters: string)
    ensures forall s :: s in ServicesOf(letters) <==> Letter(s) in letters
    ensures Distinct(letters) ==> Distinct(ServicesOf(letters))
  {
    if letters != [] {
      ServicesAre(letters[1..]);
      assert letters == [letters[0]] + letters[1..];
      if Distinct(letters) {
        assert Distinct(letters[1..]) && letters[0] !in letters[1..];
        match FromLetter(letters[0])
        case Some(s) => assert s !in ServicesOf(letters[1..]);
        case None =>
      }
    }
  }

  lemma {:induction false} SplitAtLastDot(a: string, b: string)
    requires '.' !in b
    ensures SplitLast(a + "." + b) == Some((a, b))
  {
    var s := a + "." + b;
    if b == [] {
      assert s[..|s| - 1] == a;
    } else {
      var front := b[..|b| - 1];
      assert b == front + [b[|b| - 1]];
      SplitAtLastDot(a, front);
      assert s[..|s| - 1] == a + "." + front;
    }
  }

  /** The letters of a name: those of the offered services, each once. */
  lemma {:induction false} LettersOnce(services: seq<Service>)
    ensures var letters := Dedup(Sort(CHAR_ORDER, LettersOf(services)));
            && Distinct(letters) && '.' !in letters
            && forall s :: Letter(s) in letters <==> s in services
  {
    var letters := LettersOf(services);
    OrdersAreTotal();
    SortSorts(CHAR_ORDER, letters);
    SortMembers(CHAR_ORDER, letters);
    DedupSorted(Sort(CHAR_ORDER, letters));
    LettersAre(services);
    hide *;
  }

  /** Distinct services sorted stay themselves, in canonical order. */
  lemma {:induction false} InCanonicalOrder(found: seq<Service>)
    requires Distinct(found)
    ensures var r := Sort(SERVICE_ORDER, found);
            && Distinct(r) && (forall s :: s in r <==> s in found)
            && forall i, j | 0 <= i < j < |r| :: Place(r[i]) < Place(r[j])
  {
    OrdersAreTotal();
    SortSorts(SERVICE_ORDER, found);
    SortDistinct(SERVICE_ORDER, found);
    var r := Sort(SERVICE_ORDER, found);
    forall i, j | 0 <= i < j < |r| ensures Place(r[i]) < Place(r[j]) {
      assert SERVICE_ORDER(r[i], r[j]) && r[i] != r[j];
    }
  }

  /** Some of the services, in canonical order. */
  function InOrder(services: seq<Service>): seq<Service> {
    (if Gc in services then [Gc] else [])
    + (if CompactorCoordinator in services then [CompactorCoordinator] else [])
    + (if CompactionWorkers in services then [CompactionWorkers] else [])
    + (if Mirror in services then [Mirror] else [])
  }

  lemma InOrderSorted(services: seq<Service>)
    ensures Distinct(InOrder(services)) && Sorted(SERVICE_ORDER, InOrder(services))
  {
  }

  lemma {:induction false} InOrderIs(services: seq<Service>)
    ensures Distinct(InOrder(services)) && Sorted(SERVICE_ORDER, InOrder(services))
    ensures forall s :: s in InOrder(services) <==> s in services
  {
    InOrderSorted(services);
    hide Distinct, Sorted;
    forall s ensures s in InOrder(services) <==> s in services {
      match s
      case Gc =>
      case CompactorCoordinator =>
      case CompactionWorkers =>
      case Mirror =>
    }
  }

  lemma OrderedIs(found: seq<Service>, services: seq<Service>)
    requires Distinct(found) && Sorted(SERVICE_ORDER, found) && forall s :: s in found <==> s in services
    ensures found == InOrder(services)
  {
    OrdersAreTotal();
    InOrderIs(services);
    hide *;
    SameMembers(found, InOrder(services));
    SortedIsUnique(SERVICE_ORDER, found, InOrder(services));
  }

  /** What a name is made of: the letters g, c, w and m of the services offered, each once
      and in the order of the alphabet. */
  lemma NameIs(node: string, services: seq<Service>) returns (letters: string)
    ensures ObjectName(node, services) == node + "." + letters + ".json"
    ensures forall i, j | 0 <= i < j < |letters| :: letters[i] < letters[j]
    ensures forall c | c in letters :: c == 'g' || c == 'c' || c == 'w' || c == 'm'
    ensures 'g' in letters <==> Gc in services
    ensures 'c' in letters <==> CompactorCoordinator in services
    ensures 'w' in letters <==> CompactionWorkers in services
    ensures 'm' in letters <==> Mirror in services
  {
    var all := LettersOf(services);
    letters := Dedup(Sort(CHAR_ORDER, all));
    LettersOnce(services);
    OrdersAreTotal();
    SortSorts(CHAR_ORDER, all);
    SortMembers(CHAR_ORDER, all);
    DedupSorted(Sort(CHAR_ORDER, all));
    OnlyLetters(services);
    assert Letter(Gc) == 'g' && Letter(CompactorCoordinator) == 'c';
    assert Letter(CompactionWorkers) == 'w' && Letter(Mirror) == 'm';
    hide Sort, Dedup, LettersOf, Letter;
    forall i, j | 0 <= i < j < |letters| ensures letters[i] < letters[j] {
      assert CHAR_ORDER(letters[i], letters[j]) && letters[i] != letters[j];
    }
  }

  lemma {:induction false} OnlyLetters(services: seq<Service>)
    ensures forall c | c in LettersOf(services) :: c == 'g' || c == 'c' || c == 'w' || c == 'm'
  {
    if services != [] { OnlyLetters(services[1..]); }
  }

  /** A heartbeat name parses back to its node id and the distinct offered services in
      canonical order. */
  lemma NameRoundTrips(node: string, services: seq<Service>)
    requires node != ""
    ensures var r := ParseObjectName(ObjectName(node, services));
            r == Some((node, InOrder(services)))
  {
    hide Sort, Dedup;
    var letters := Dedup(Sort(CHAR_ORDER, LettersOf(services)));
    LettersOnce(services);
    assert ObjectName(node, services) == (node + "." + letters) + ".json";
    Names.StemIs(node + "." + letters, ".json");
    SplitAtLastDot(node, letters);
    ServicesAre(letters);
    InCanonicalOrder(ServicesOf(letters));
    OrderedIs(Sort(SERVICE_ORDER, ServicesOf(letters)), services);
  }

  /** Different node ids, or the same id offering different services, never share a
      name. */
  lemma NamesAreDistinct(a: string, x: seq<Service>, b: string, y: seq<Service>)
    requires a != "" && b != "" && ObjectName(a, x) == ObjectName(b, y)
    ensures a == b && forall s :: s in x <==> s in y
  {
    NameRoundTrips(a, x);
    NameRoundTrips(b, y);
    InOrderIs(x);
    InOrderIs(y);
  }
}
