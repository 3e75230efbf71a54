/** The configuration poller (src/root.rs): the registry view kept up to date with few
    reads. ETag caches and skipped bodies are its own business; what it reports is
    what fetching and parsing every file would, with the last version it parsed
    standing in for a file that cannot be used. That is not always the last good one:
    the second half says exactly when. */
module Poller {
  import opened Wrappers
  import opened Services
  import opened Sorting
  import opened Placement

  /** A database's settings: its services, and everything else as one value. */
  datatype DatabaseConfig = DatabaseConfig(services: Option<seq<Service>>, rest: nat)

  const DEFAULT_DATABASE := DatabaseConfig(None, 0)
  const DISABLED := DatabaseConfig(Some([]), 0)

  datatype Policy = Policy(settings: nat)

  const DEFAULT_POLICY := Policy(0)

  /** The parsers, and what a tag stands for: files of one name with one ETag have one
      body. A registry body decodes by itself; the policy only says whether it is
      valid. */
  datatype Codec = Codec(
    decodeName: Bytes -> Option<Bytes>,
    canonical: Bytes -> Option<Bytes>,
    content: (Bytes, nat) -> Bytes,
    decode: Bytes -> Option<DatabaseConfig>,
    validates: (Policy, DatabaseConfig) -> bool,
    policyContent: nat -> Bytes,
    decodePolicy: Bytes -> Option<Policy>)

  datatype Blob = Blob(body: Bytes, etag: Option<nat>)

  /** The registry during one poll: the files, and those whose GET fails. */
  datatype Registry = Registry(files: map<Bytes, Blob>, unreadable: set<Bytes>)

  ghost predicate Honest(c: Codec, r: Registry) {
    forall n | n in r.files && r.files[n].etag.Some? :: r.files[n].body == c.content(n, r.files[n].etag.value)
  }

  /* What a poll reports, given a memory of the versions before. */

  /** The body of a file, parsed, if it can be read and is valid. */
  function Parsed(c: Codec, p: Policy, r: Registry, n: Bytes): Option<DatabaseConfig>
    requires n in r.files
  {
    if n in r.unreadable then None
    else match c.decode(r.files[n].body)
      case None => None
      case Some(db) => if c.validates(p, db) then Some(db) else None
  }

  /** One file's effective settings: the default for an empty file, the parsed body,
      or the last good version, or the database is disabled. */
  function Effective(c: Codec, p: Policy, r: Registry, good: map<Bytes, DatabaseConfig>, n: Bytes): DatabaseConfig
    requires n in r.files
  {
    if r.files[n].body == [] then DEFAULT_DATABASE
    else match Parsed(c, p, r, n)
      case Some(db) => db
      case None => if n in good then good[n] else DISABLED
  }

  function GoodAfter(c: Codec, p: Policy, r: Registry, good: map<Bytes, DatabaseConfig>, n: Bytes): map<Bytes,
                     DatabaseConfig>
    requires n in r.files
  {
    if r.files[n].body == [] then good
    else match Parsed(c, p, r, n)
      case Some(db) => good[n := db]
      case None => good
  }

  /** The database a file name stands for. */
  function UrlOf(c: Codec, n: Bytes): Option<Bytes> {
    match c.decodeName(n)
    case None => None
    case Some(d) => c.canonical(d)
  }

  /** Whether a name spells its database's URL otherwise than canonically. */
  predicate IsAlias(c: Codec, n: Bytes) {
    c.decodeName(n) != UrlOf(c, n)
  }

  /** Canonical spellings come first, then names in order. */
  predicate Sooner(c: Codec, a: Bytes, b: Bytes) {
    if IsAlias(c, a) == IsAlias(c, b) then LexLe(a, b) else !IsAlias(c, a)
  }

  /** Of the names listed for its database, `n` comes first. */
  ghost predicate Wins(c: Codec, names: seq<Bytes>, n: Bytes) {
    n in names && UrlOf(c, n).Some? && forall m | m in names && UrlOf(c, m) == UrlOf(c, n) :: Sooner(c, n, m)
  }

  /** The registry view: every database some listed name stands for, as its winning
      file has it. */
  ghost predicate IsView(c: Codec, p: Policy, r: Registry, good: map<Bytes, DatabaseConfig>, names: seq<Bytes>,
                         view: map<Bytes, DatabaseConfig>)
    requires forall n | n in names :: n in r.files
  {
    && (forall url :: url in view <==> exists n :: n in names && UrlOf(c, n) == Some(url))
    && forall n | Wins(c, names, n) ::
         UrlOf(c, n).value in view && view[UrlOf(c, n).value] == Effective(c, p, r, good, n)
  }

  /** The last good versions after a poll: those of winning files only. */
  ghost predicate IsGood(c: Codec, p: Policy, r: Registry, good: map<Bytes, DatabaseConfig>, names: seq<Bytes>,
                         after: map<Bytes, DatabaseConfig>)
    requires forall n | n in names :: n in r.files
  {
    && (forall n | n in after :: Wins(c, names, n))
    && forall n | Wins(c, names, n) ::
         (n in after <==> n in GoodAfter(c, p, r, good, n))
         && (n in after ==> after[n] == GoodAfter(c, p, r, good, n)[n])
  }

  lemma SoonerTotal(c: Codec, a: Bytes, b: Bytes)
    ensures Sooner(c, a, b) || Sooner(c, b, a)
    ensures Sooner(c, a, b) && Sooner(c, b, a) ==> a == b
  {
    LexTotal(a, b);
  }

  lemma SoonerTransitive(c: Codec, a: Bytes, b: Bytes, d: Bytes)
    requires Sooner(c, a, b) && Sooner(c, b, d)
    ensures Sooner(c, a, d)
  {
    if LexLe(a, b) && LexLe(b, d) { LexTransitive(a, b, d); }
  }

  function NameOrder(c: Codec): (Bytes, Bytes) -> bool {
    (a, b) => Sooner(c, a, b)
  }

  lemma NameOrderIsTotal(c: Codec)
    ensures TotalOrder(NameOrder(c))
  {
    hide Sooner;
    var le := NameOrder(c);
    forall a, b ensures le(a, b) || le(b, a) { SoonerTotal(c, a, b); }
    forall a, b | le(a, b) && le(b, a) ensures a == b { SoonerTotal(c, a, b); }
    forall a, b, d | le(a, b) && le(b, d) ensures le(a, d) { SoonerTransitive(c, a, b, d); }
  }

  /** A database has one winning file, and an alias never wins against a canonical
      spelling. */
  lemma OneWinner(c: Codec, names: seq<Bytes>, a: Bytes, b: Bytes)
    requires Wins(c, names, a) && b in names && UrlOf(c, b) == UrlOf(c, a)
    ensures Wins(c, names, b) ==> a == b
    ensures c.decodeName(a).Some? && c.canonical(c.decodeName(a).value) == UrlOf(c, a)
    ensures c.decodeName(b) == UrlOf(c, b) ==> c.decodeName(a) == UrlOf(c, a)
    ensures (c.decodeName(b) == UrlOf(c, b) <==> c.decodeName(a) == UrlOf(c, a)) ==> LexLe(a, b)
  {
    SoonerTotal(c, a, b);
  }

  /** The view does not depend on the order of the listing. */
  lemma {:induction false} ViewIgnoresOrder(c: Codec, p: Policy, r: Registry, good: map<Bytes, DatabaseConfig>,
        a: seq<Bytes>, b: seq<Bytes>,
                         x: map<Bytes, DatabaseConfig>, y: map<Bytes, DatabaseConfig>)
    requires (forall n :: n in a <==> n in b) && forall n | n in a :: n in r.files
    requires IsView(c, p, r, good, a, x) && IsView(c, p, r, good, b, y)
    ensures x == y
  {
    hide Effective, Sooner;
    forall url | url in x ensures url in y && x[url] == y[url] {
      var n :| n in a && UrlOf(c, n) == Some(url);
      var w := WinnerFor(c, a, n);
      assert Wins(c, a, w) && Wins(c, b, w);
    }
    assert forall url | url in y :: url in x;
  }

  lemma {:induction false} WinnerFor(c: Codec, names: seq<Bytes>, n: Bytes) returns (w: Bytes)
    requires n in names && UrlOf(c, n).Some?
    ensures Wins(c, names, w) && UrlOf(c, w) == UrlOf(c, n)
    decreases |names|
  {
    hide Sooner;
    var first, rest := names[0], names[1..];
    assert names == [first] + rest;
    SoonerTotal(c, first, first);
    if UrlOf(c, first) == UrlOf(c, n) && forall m | m in rest && UrlOf(c, m) == UrlOf(c, n) :: Sooner(c, first, m) {
      w := first;
    } else if UrlOf(c, first) != UrlOf(c, n) {
      w := WinnerFor(c, rest, n);
    } else {
      var m :| m in rest && UrlOf(c, m) == UrlOf(c, n) && !Sooner(c, first, m);
      w := WinnerFor(c, rest, m);
      assert Sooner(c, w, m);
      SoonerTotal(c, first, m);
      SoonerTransitive(c, w, m, first);
    }
  }

  /* What the documentation promises, and where the poller departs from it. */

  /** The last good version with an empty file counted as what it is: a usable one that
      asks for the default. */
  function RememberedAfter(c: Codec, p: Policy, r: Registry, known: map<Bytes, DatabaseConfig>, n: Bytes)
    : map<Bytes, DatabaseConfig>
    requires n in r.files
  {
    if r.files[n].body == [] then known[n := DEFAULT_DATABASE]
    else match Parsed(c, p, r, n)
      case Some(db) => known[n := db]
      case None => known
  }

  /** The files that were empty when they were last usable. */
  function BlankAfter(c: Codec, p: Policy, r: Registry, blank: set<Bytes>, n: Bytes): set<Bytes>
    requires n in r.files
  {
    if r.files[n].body == [] then blank + {n}
    else if Parsed(c, p, r, n).Some? then blank - {n}
    else blank
  }

  /** What the poller remembers, what it is documented to remember, and the files
      listed empty when they were last usable. */
  datatype Memory = Memory(
    good: map<Bytes, DatabaseConfig>, documented: map<Bytes, DatabaseConfig>, blank: set<Bytes>)

  const NO_MEMORY := Memory(map[], map[], {})

  /** The memories after a poll; only winning files are remembered. */
  ghost function NextMemory(c: Codec, p: Policy, r: Registry, names: seq<Bytes>, m: Memory): Memory
    requires forall n | n in names :: n in r.files
  {
    Memory(
      map n | n in names && Wins(c, names, n) && n in GoodAfter(c, p, r, m.good, n) ::
          GoodAfter(c, p, r, m.good, n)[n],
      map n | n in names && Wins(c, names, n) && n in RememberedAfter(c, p, r, m.documented, n) ::
        RememberedAfter(c, p, r, m.documented, n)[n],
      set n | n in names && Wins(c, names, n) && n in BlankAfter(c, p, r, m.blank, n))
  }

  predicate SameAt(a: map<Bytes, DatabaseConfig>, b: map<Bytes, DatabaseConfig>, n: Bytes) {
    (n in a <==> n in b) && (n in a ==> a[n] == b[n])
  }

  /** The two memories differ on blank files alone, and there the documented one is the
      default. */
  ghost predicate Agree(m: Memory) {
    forall n ::
      if n in m.blank then n in m.documented && m.documented[n] == DEFAULT_DATABASE
      else SameAt(m.good, m.documented, n)
  }

  lemma AgreementLasts(c: Codec, p: Policy, r: Registry, names: seq<Bytes>, m: Memory)
    requires Agree(m) && forall n | n in names :: n in r.files
    ensures Agree(NextMemory(c, p, r, names, m))
  {
    hide Wins, Parsed;
    var next := NextMemory(c, p, r, names, m);
    forall n
      ensures if n in next.blank then n in next.documented && next.documented[n] == DEFAULT_DATABASE
              else SameAt(next.good, next.documented, n)
    {
      assert n !in m.blank ==> SameAt(m.good, m.documented, n);
    }
  }

  /** The poller falls back to other than it should: the file is there but cannot be
      used, it was empty when it last could, and what the poller has of it from before,
      if anything, is not the default. */
  predicate FallsBackWrongly(c: Codec, p: Policy, r: Registry, m: Memory, n: Bytes)
    requires n in r.files
  {
    && r.files[n].body != [] && Parsed(c, p, r, n).None? && n in m.blank
    && (if n in m.good then m.good[n] else DISABLED) != DEFAULT_DATABASE
  }

  /** One file: the settings in force differ from the documented ones exactly then. */
  lemma DiffersExactly(c: Codec, p: Policy, r: Registry, m: Memory, n: Bytes)
    requires Agree(m) && n in r.files
    ensures Effective(c, p, r, m.good, n) != Effective(c, p, r, m.documented, n) <==> FallsBackWrongly(c, p, r, m, n)
  {
    hide Parsed;
  }

  /** The view that a memory gives. */
  ghost function ViewBy(c: Codec, p: Policy, r: Registry, good: map<Bytes, DatabaseConfig>, names: seq<Bytes>)
    : (view: map<Bytes, DatabaseConfig>)
    requires forall n | n in names :: n in r.files
    ensures IsView(c, p, r, good, names, view)
  {
    WinnersDiffer(c, names);
    map n | n in names && Wins(c, names, n) :: UrlOf(c, n).value := Effective(c, p, r, good, n)
  }

  lemma WinnersDiffer(c: Codec, names: seq<Bytes>)
    ensures forall a, b | Wins(c, names, a) && Wins(c, names, b) && UrlOf(c, a) == UrlOf(c, b) :: a == b
    ensures forall n | n in names && UrlOf(c, n).Some? :: exists w :: Wins(c, names, w) && UrlOf(c, w) == UrlOf(c, n)
  {
    forall a, b | Wins(c, names, a) && Wins(c, names, b) && UrlOf(c, a) == UrlOf(c, b) ensures a == b {
      OneWinner(c, names, a, b);
    }
    forall n | n in names && UrlOf(c, n).Some? ensures exists w :: Wins(c, names, w) && UrlOf(c, w) == UrlOf(c, n) {
      var w := WinnerFor(c, names, n);
    }
  }

  /** One successful poll: the policy in force, the names listed and the files. */
  datatype Polled = Polled(policy: Policy, names: seq<Bytes>, registry: Registry)

  predicate Listed(q: Polled) {
    forall n | n in q.names :: n in q.registry.files
  }

  ghost function MemoryAfter(c: Codec, polls: seq<Polled>): Memory
    requires forall q | q in polls :: Listed(q)
  {
    if polls == [] then NO_MEMORY
    else
      var q := polls[|polls| - 1];
      assert q in polls && Listed(q);
      NextMemory(c, q.policy, q.registry, q.names, MemoryAfter(c, polls[..|polls| - 1]))
  }

  lemma {:induction false} MemoriesAgree(c: Codec, polls: seq<Polled>)
    requires forall q | q in polls :: Listed(q)
    ensures Agree(MemoryAfter(c, polls))
  {
    hide NextMemory;
    if polls != [] {
      var q := polls[|polls| - 1];
      assert q in polls;
      MemoriesAgree(c, polls[..|polls| - 1]);
      AgreementLasts(c, q.policy, q.registry, q.names, MemoryAfter(c, polls[..|polls| - 1]));
    }
  }

  /** One more poll, remembered. */
  lemma PolledOnce(c: Codec, polls: seq<Polled>, q: Polled, good: map<Bytes, DatabaseConfig>)
    requires (forall x | x in polls :: Listed(x)) && Listed(q)
    requires IsGood(c, q.policy, q.registry, MemoryAfter(c, polls).good, q.names, good)
    ensures forall x | x in polls + [q] :: Listed(x)
    ensures MemoryAfter(c, polls + [q]).good == good
  {
    var all := polls + [q];
    assert all[..|all| - 1] == polls && all[|all| - 1] == q;
    GoodIs(c, q, MemoryAfter(c, polls), good);
    hide GoodAfter, NextMemory, IsGood;
  }

  lemma GoodIs(c: Codec, q: Polled, m: Memory, good: map<Bytes, DatabaseConfig>)
    requires Listed(q) && IsGood(c, q.policy, q.registry, m.good, q.names, good)
    ensures NextMemory(c, q.policy, q.registry, q.names, m).good == good
  {
    hide GoodAfter, RememberedAfter, BlankAfter;
    var next := NextMemory(c, q.policy, q.registry, q.names, m);
    forall n ensures SameAt(next.good, good, n) {
      assert n in good ==> Wins(c, q.names, n);
    }
    assert next.good == good;
  }

  /** The view departs from the documented settings exactly at the databases whose
      winning file the poller falls back wrongly for. */
  ghost predicate DepartsExactly(c: Codec, q: Polled, m: Memory, view: map<Bytes, DatabaseConfig>)
    requires Listed(q)
  {
    forall n | Wins(c, q.names, n) ::
      && UrlOf(c, n).value in view
      && (view[UrlOf(c, n).value] != Effective(c, q.policy, q.registry, m.documented, n)
          <==> FallsBackWrongly(c, q.policy, q.registry, m, n))
  }

  lemma ViewsDepart(c: Codec, polls: seq<Polled>, q: Polled, view: map<Bytes, DatabaseConfig>)
    requires (forall x | x in polls :: Listed(x)) && Listed(q)
    requires IsView(c, q.policy, q.registry, MemoryAfter(c, polls).good, q.names, view)
    ensures DepartsExactly(c, q, MemoryAfter(c, polls), view)
  {
    hide Effective, FallsBackWrongly, NextMemory;
    MemoriesAgree(c, polls);
    forall n | Wins(c, q.names, n)
      ensures UrlOf(c, n).value in view
              && (view[UrlOf(c, n).value] != Effective(c, q.policy, q.registry, MemoryAfter(c, polls).documented, n)
                  <==> FallsBackWrongly(c, q.policy, q.registry, MemoryAfter(c, polls), n))
    {
      DiffersExactly(c, q.policy, q.registry, MemoryAfter(c, polls), n);
    }
  }

  /** Over any run of polls: the view departs from the documented one, at the database
      of a winning file, exactly when the poller falls back wrongly for that file. */
  lemma ViewDepartsExactly(c: Codec, polls: seq<Polled>, q: Polled, view: map<Bytes, DatabaseConfig>, n: Bytes)
    requires (forall q | q in polls :: Listed(q)) && Listed(q) && Wins(c, q.names, n)
    requires IsView(c, q.policy, q.registry, MemoryAfter(c, polls).good, q.names, view)
    ensures var m := MemoryAfter(c, polls);
            var documented := ViewBy(c, q.policy, q.registry, m.documented, q.names);
            var url := UrlOf(c, n).value;
            && url in view && url in documented
            && (view[url] != documented[url] <==> FallsBackWrongly(c, q.policy, q.registry, m, n))
  {
    hide Effective, FallsBackWrongly, NextMemory;
    MemoriesAgree(c, polls);
    DiffersExactly(c, q.policy, q.registry, MemoryAfter(c, polls), n);
  }

  /** The common case of it: registered with an empty file, and the file then cannot be
      used. The database is disabled, not left at the default. */
  lemma BlankThenUnusable(c: Codec, first: Polled, second: Polled, n: Bytes)
    requires Listed(first) && Listed(second) && Wins(c, first.names, n) && Wins(c, second.names, n)
    requires first.registry.files[n].body == []
    requires second.registry.files[n].body != [] && Parsed(c, second.policy, second.registry, n).None?
    ensures var m := MemoryAfter(c, [first]);
            && Effective(c, second.policy, second.registry, m.good, n) == DISABLED
            && Effective(c, second.policy, second.registry, m.documented, n) == DEFAULT_DATABASE
  {
    assert [first][..0] == [] && first in [first];
    assert MemoryAfter(c, [first]) == NextMemory(c, first.policy, first.registry, first.names, NO_MEMORY);
  }

  /** The other: an override, then emptied, and the file then cannot be used. The
      override comes back. */
  lemma OverrideComesBack(c: Codec, one: Polled, two: Polled, three: Polled, n: Bytes)
    requires Listed(one) && Listed(two) && Listed(three)
    requires Wins(c, one.names, n) && Wins(c, two.names, n) && Wins(c, three.names, n)
    requires one.registry.files[n].body != [] && Parsed(c, one.policy, one.registry, n).Some?
    requires two.registry.files[n].body == []
    requires three.registry.files[n].body != [] && Parsed(c, three.policy, three.registry, n).None?
    ensures var m := MemoryAfter(c, [one, two]);
            && Effective(c, three.policy, three.registry, m.good, n) == Parsed(c, one.policy, one.registry, n).value
            && Effective(c, three.policy, three.registry, m.documented, n) == DEFAULT_DATABASE
  {
    assert [one, two][..1] == [one] && [one][..0] == [] && one in [one, two] && two in [one, two] && one in [one];
    var a := NextMemory(c, one.policy, one.registry, one.names, NO_MEMORY);
    assert MemoryAfter(c, [one]) == a;
    assert MemoryAfter(c, [one, two]) == NextMemory(c, two.policy, two.registry, two.names, a);
    assert n in a.good && a.good[n] == Parsed(c, one.policy, one.registry, n).value;
  }

  datatype CachedFile = CachedFile(etag: Option<nat>, config: Option<DatabaseConfig>)

  /** How reading the policy file went. */
  datatype PolicyRead = NotFound | ReadFailed | Got(blob: Blob, bodyReadable: bool)

  /** The policy after a read without any cache. */
  function PolicyAfter(c: Codec, p: Policy, read: PolicyRead): Policy {
    match read
    case NotFound => DEFAULT_POLICY
    case ReadFailed => p
    case Got(blob, readable) =>
      if !readable then p
      else match c.decodePolicy(blob.body) case Some(q) => q case None => p
  }

  class ConfigPoller {
    const codec: Codec
    var configEtag: Option<nat>
    var config: Policy
    var files: map<Bytes, CachedFile>
    /** The last successful registry view. */
    var databases: map<Bytes, DatabaseConfig>
    /** The last good version of every file, as a poller without caches knows it. */
    ghost var good: map<Bytes, DatabaseConfig>
    /** Every successful poll so far. */
    ghost var history: seq<Polled>

    constructor (codec: Codec)
      ensures Valid() && this.codec == codec && config == DEFAULT_POLICY && databases == map[] && good == map[]
      ensures history == []
    {
      this.codec := codec;
      configEtag, config, files, databases, good := None, DEFAULT_POLICY, map[], map[], map[];
      history := [];
    }

    /** The caches agree with what was last good. */
    ghost predicate CacheOk(c: map<Bytes, CachedFile>, g: map<Bytes, DatabaseConfig>)
    {
      c.Keys == g.Keys && forall n | n in c ::
        && c[n].config == Some(g[n])
        && (c[n].etag.Some? ==> codec.decode(codec.content(n, c[n].etag.value)) == Some(g[n]))
    }

    ghost predicate Cached()
      reads this
    {
      CacheOk(files, good)
      && (configEtag.Some? ==> codec.decodePolicy(codec.policyContent(configEtag.value)) == Some(config))
    }

    /** ... and that is what the polls so far come to. */
    ghost predicate Valid()
      reads this
    {
      Cached() && (forall q | q in history :: Listed(q)) && good == MemoryAfter(codec, history).good
    }

    /** `poll_config`. */
    method PollConfig(read: PolicyRead)
      requires Valid()
      requires read.Got? && read.blob.etag.Some? ==> read.blob.body == codec.policyContent(read.blob.etag.value)
      modifies this`config, this`configEtag
      ensures Valid() && config == PolicyAfter(codec, old(config), read)
      ensures read.NotFound? ==> config == DEFAULT_POLICY
      ensures read.ReadFailed? ==> config == old(config)
      ensures read.Got? && read.bodyReadable && codec.decodePolicy(read.blob.body).Some? ==>
                config == codec.decodePolicy(read.blob.body).value
      ensures read.Got? && (!read.bodyReadable || codec.decodePolicy(read.blob.body).None?) ==> config == old(config)
    {
      match read {
        case NotFound => configEtag, config := None, DEFAULT_POLICY;
        case ReadFailed => return;
        case Got(blob, readable) =>
          if blob.etag.Some? && blob.etag == configEtag { return; }
          if !readable { return; }
          match codec.decodePolicy(blob.body) {
            case Some(p) => config, configEtag := p, blob.etag;
            case None =>
          }
      }
    }

    /** The file can be read, it decodes, and the policy in force allows what it says. */
    predicate Usable(r: Registry, n: Bytes)
      reads this
      requires n in r.files
    {
      && n !in r.unreadable && codec.decode(r.files[n].body).Some?
      && codec.validates(config, codec.decode(r.files[n].body).value)
    }

    /** `file_config`. An empty file is never fetched, and neither is one whose ETag is
        the cached one. */
    method FileConfig(r: Registry, n: Bytes) returns (db: DatabaseConfig)
      requires Cached() && Honest(codec, r) && n in r.files
      modifies this`files, this`good
      ensures Cached() && db == Effective(codec, config, r, old(good), n)
      ensures good == GoodAfter(codec, config, r, old(good), n)
      ensures r.files[n].body == [] ==> db.services.None? && db.rest == 0 && good == old(good)
      ensures r.files[n].body != [] && Usable(r, n) ==>
                Some(db) == codec.decode(r.files[n].body) && good == old(good)[n := db]
      ensures r.files[n].body != [] && !Usable(r, n) ==> good == old(good)
      ensures r.files[n].body != [] && !Usable(r, n) && n in old(good) ==> db == old(good)[n]
      ensures r.files[n].body != [] && !Usable(r, n) && n !in old(good) ==> db.services == Some([])
    {
      var blob := r.files[n];
      if |blob.body| == 0 { return DEFAULT_DATABASE; }
      if n in files && files[n].etag.Some? && files[n].etag == blob.etag && files[n].config.Some? {
        assert codec.decode(blob.body) == Some(good[n]);
        good := GoodAfter(codec, config, r, good, n);
        assert good == old(good);
        return files[n].config.value;
      }
      match Parsed(codec, config, r, n) {
        case Some(parsed) =>
          files := files[n := CachedFile(blob.etag, Some(parsed))];
          good := good[n := parsed];
          return parsed;
        case None =>
          if n in files && files[n].config.Some? { return files[n].config.value; }
          return DISABLED;
      }
    }

    lemma RetainKeeps(c: map<Bytes, CachedFile>, g: map<Bytes, DatabaseConfig>, seen: map<Bytes, Bytes>)
      requires CacheOk(c, g)
      ensures CacheOk(map n | n in c && Won(codec, seen, n) :: c[n], map n | n in g && Won(codec, seen, n) :: g[n])
    {
    }

    /** `poll_registry`. A failed LIST keeps the previous view whole. */
    method PollRegistry(listing: Option<seq<Bytes>>, r: Registry) returns (view: map<Bytes, DatabaseConfig>)
      requires Valid() && Honest(codec, r)
      requires listing.Some? ==> forall n | n in listing.value :: n in r.files
      modifies this`files, this`good, this`databases, this`history
      ensures Valid() && view == databases
      ensures listing.None? ==> databases == old(databases) && files == old(files) && history == old(history)
      ensures listing.Some? ==> history == old(history) + [Polled(config, listing.value, r)]
      ensures listing.Some? ==>
                DepartsExactly(codec, Polled(config, listing.value, r), MemoryAfter(codec, old(history)), databases)
      ensures listing.Some? ==>
                IsView(codec, config, r, MemoryAfter(codec, old(history)).good, listing.value, databases)
                && IsGood(codec, config, r, MemoryAfter(codec, old(history)).good, listing.value, good)
    {
      if listing.None? { return databases; }
      hide *;
      ghost var q := Polled(config, listing.value, r);
      view := Scan(listing.value, r);
      ViewsDepart(codec, history, q, view);
      PolledOnce(codec, history, q, good);
      history := history + [q];
    }

    /** A listing, read and adopted. */
    method Scan(listing: seq<Bytes>, r: Registry) returns (view: map<Bytes, DatabaseConfig>)
      requires Cached() && Honest(codec, r) && forall n | n in listing :: n in r.files
      modifies this`files, this`good, this`databases
      ensures Cached() && view == databases
      ensures IsView(codec, config, r, old(good), listing, databases)
      ensures IsGood(codec, config, r, old(good), listing, good)
    {
      hide *;
      var listed := Filter(n => UrlOf(codec, n).Some?, listing);
      var names := Sort(NameOrder(codec), listed);
      SortedNames(codec, listing, names);
      var seen;
      view, seen := ReadAll(r, names);
      SeenWins(codec, listing, names, seen);
      SoFarEnds(codec, config, r, old(good), listing, view, seen, good);
      Retain(view, seen);
    }

    /** Read each database from the first of its names. */
    method ReadAll(r: Registry, names: seq<Bytes>)
      returns (view: map<Bytes, DatabaseConfig>, seen: map<Bytes, Bytes>)
      requires Cached() && Honest(codec, r) && HasUrls(codec, names) && forall n | n in names :: n in r.files
      modifies this`files, this`good
      ensures Cached() && Seen(codec, names, |names|, seen)
      ensures ReadSoFar(codec, config, r, old(good), view, seen, good)
    {
      hide Sooner, Effective, GoodAfter, Seen, ReadSoFar, CacheOk;
      view, seen := map[], map[];
      Starts(codec, config, r, good, names);
      for k := 0 to |names|
        invariant Cached()
        invariant Seen(codec, names, k, seen) && ReadSoFar(codec, config, r, old(good), view, seen, good)
      {
        var n := names[k];
        SeenNext(codec, names, k, seen);
        var url := UrlOf(codec, n).value;
        if url in seen { continue; }
        ReadNext(codec, config, r, old(good), view, seen, good, n, url);
        var db := FileConfig(r, n);
        seen := seen[url := n];
        view := view[url := db];
      }
    }

    /** Adopt a view, and forget the cached files it was not read from. */
    method Retain(view: map<Bytes, DatabaseConfig>, seen: map<Bytes, Bytes>)
      requires Cached()
      modifies this`files, this`good, this`databases
      ensures Cached() && databases == view
      ensures good == map n | n in old(good) && Won(codec, seen, n) :: old(good)[n]
    {
      hide CacheOk, Won;
      RetainKeeps(files, good, seen);
      files := map n | n in files && Won(codec, seen, n) :: files[n];
      good := map n | n in good && Won(codec, seen, n) :: good[n];
      databases := view;
    }

    /** `poll`: the policy, then the registry under it. */
    method Poll(read: PolicyRead, listing: Option<seq<Bytes>>, r: Registry)
      requires Valid() && Honest(codec, r)
      requires read.Got? && read.blob.etag.Some? ==> read.blob.body == codec.policyContent(read.blob.etag.value)
      requires listing.Some? ==> forall n | n in listing.value :: n in r.files
      modifies this
      ensures Valid() && config == PolicyAfter(codec, old(config), read)
      ensures read.NotFound? ==> config == DEFAULT_POLICY
      ensures read.ReadFailed? ==> config == old(config)
      ensures read.Got? && read.bodyReadable && codec.decodePolicy(read.blob.body).Some? ==>
                config == codec.decodePolicy(read.blob.body).value
      ensures read.Got? && (!read.bodyReadable || codec.decodePolicy(read.blob.body).None?) ==> config == old(config)
      ensures listing.None? ==> databases == old(databases) && history == old(history)
      ensures listing.Some? ==> history == old(history) + [Polled(config, listing.value, r)]
      ensures listing.Some? ==>
                DepartsExactly(codec, Polled(config, listing.value, r), MemoryAfter(codec, old(history)), databases)
      ensures listing.Some? ==>
                IsView(codec, config, r, MemoryAfter(codec, old(history)).good, listing.value, databases)
                && IsGood(codec, config, r, MemoryAfter(codec, old(history)).good, listing.value, good)
    {
      PollConfig(read);
      var _ := PollRegistry(listing, r);
    }
  }

  /* The registry loop. */

  predicate HasUrls(c: Codec, names: seq<Bytes>) {
    forall n | n in names :: UrlOf(c, n).Some?
  }

  /** No earlier name stands for the same database. */
  predicate First(c: Codec, names: seq<Bytes>, i: int) {
    0 <= i < |names| && forall j | 0 <= j < i :: UrlOf(c, names[j]) != UrlOf(c, names[i])
  }

  /** Name `n` is the one its database was read from. */
  predicate Won(c: Codec, seen: map<Bytes, Bytes>, n: Bytes) {
    UrlOf(c, n).Some? && UrlOf(c, n).value in seen && seen[UrlOf(c, n).value] == n
  }

  /** The first `k` names have settled which files win. */
  ghost predicate Seen(c: Codec, names: seq<Bytes>, k: nat, seen: map<Bytes, Bytes>) {
    && k <= |names| && HasUrls(c, names)
    && (forall i | 0 <= i < k :: UrlOf(c, names[i]).value in seen)
    && (forall url | url in seen :: UrlOf(c, seen[url]) == Some(url))
    && forall url | url in seen :: exists i :: i < k && First(c, names, i) && names[i] == seen[url]
  }

  /** Each database seen has been read from its winning file, and no other file has
      been touched. */
  ghost predicate ReadSoFar(c: Codec, p: Policy, r: Registry, before: map<Bytes, DatabaseConfig>,
                            view: map<Bytes, DatabaseConfig>, seen: map<Bytes, Bytes>,
                            good: map<Bytes, DatabaseConfig>)
  {
    && view.Keys == seen.Keys
    && (forall url | url in seen :: seen[url] in r.files && UrlOf(c, seen[url]) == Some(url)
                                    && view[url] == Effective(c, p, r, before, seen[url])
                                    && SameAt(good, GoodAfter(c, p, r, before, seen[url]), seen[url]))
    && forall n | !Won(c, seen, n) :: SameAt(good, before, n)
  }

  lemma SortedNames(c: Codec, listing: seq<Bytes>, names: seq<Bytes>)
    requires names == Sort(NameOrder(c), Filter(n => UrlOf(c, n).Some?, listing))
    ensures forall n :: n in names <==> n in listing && UrlOf(c, n).Some?
    ensures forall i, j | 0 <= i <= j < |names| :: Sooner(c, names[i], names[j])
    ensures HasUrls(c, names)
  {
    hide Sooner;
    var listed := Filter(n => UrlOf(c, n).Some?, listing);
    forall n ensures n in names <==> n in listing && UrlOf(c, n).Some? {
      FilterMember(m => UrlOf(c, m).Some?, listing, n);
      assert n in names <==> n in multiset(names);
      assert n in listed <==> n in multiset(listed);
    }
    NameOrderIsTotal(c);
    SortSorts(NameOrder(c), listed);
    forall i, j | 0 <= i <= j < |names| ensures Sooner(c, names[i], names[j]) {
      assert NameOrder(c)(names[i], names[j]);
    }
  }

  lemma Starts(c: Codec, p: Policy, r: Registry, before: map<Bytes, DatabaseConfig>, names: seq<Bytes>)
    requires HasUrls(c, names)
    ensures Seen(c, names, 0, map[]) && ReadSoFar(c, p, r, before, map[], map[], before)
  {
  }

  lemma SeenNext(c: Codec, names: seq<Bytes>, k: nat, seen: map<Bytes, Bytes>)
    requires Seen(c, names, k, seen) && k < |names|
    ensures var n, url := names[k], UrlOf(c, names[k]);
            && url.Some?
            && (url.value in seen ==> Seen(c, names, k + 1, seen))
            && (url.value !in seen ==> Seen(c, names, k + 1, seen[url.value := n]))
  {
    var n := names[k];
    var url := UrlOf(c, n).value;
    if url !in seen {
      assert First(c, names, k) by {
        assert forall j | 0 <= j < k :: UrlOf(c, names[j]).value in seen;
      }
      var after := seen[url := n];
      forall u | u in after ensures exists i :: i < k + 1 && First(c, names, i) && names[i] == after[u] {
        if u != url {
          var i :| i < k && First(c, names, i) && names[i] == seen[u];
        }
      }
    }
  }

  lemma ReadNext(c: Codec, p: Policy, r: Registry, before: map<Bytes, DatabaseConfig>, view: map<Bytes,
                 DatabaseConfig>,
                 seen: map<Bytes, Bytes>, good: map<Bytes, DatabaseConfig>, n: Bytes, url: Bytes)
    requires ReadSoFar(c, p, r, before, view, seen, good)
    requires n in r.files && UrlOf(c, n) == Some(url) && url !in seen
    ensures ReadSoFar(c, p, r, before, view[url := Effective(c, p, r, good, n)], seen[url := n],
                      GoodAfter(c, p, r, good, n))
  {
    hide UrlOf;
    assert !Won(c, seen, n);
    assert SameAt(good, before, n);
    var after := seen[url := n];
    var g := GoodAfter(c, p, r, good, n);
    EffectiveAt(c, p, r, good, before, n);
    forall u | u in after && u != url ensures SameAt(g, GoodAfter(c, p, r, before, after[u]), after[u]) {
      assert after[u] == seen[u] && seen[u] != n;
      OthersUntouched(c, p, r, good, n, seen[u]);
    }
    forall m | !Won(c, after, m) ensures SameAt(g, before, m) {
      assert m != n && !Won(c, seen, m);
      OthersUntouched(c, p, r, good, n, m);
    }
  }

  lemma EffectiveAt(c: Codec, p: Policy, r: Registry, a: map<Bytes, DatabaseConfig>, b: map<Bytes,
                    DatabaseConfig>, n: Bytes)
    requires SameAt(a, b, n) && n in r.files
    ensures Effective(c, p, r, a, n) == Effective(c, p, r, b, n)
    ensures SameAt(GoodAfter(c, p, r, a, n), GoodAfter(c, p, r, b, n), n)
  {
  }

  lemma OthersUntouched(c: Codec, p: Policy, r: Registry, good: map<Bytes, DatabaseConfig>, n: Bytes, m: Bytes)
    requires n in r.files && m != n
    ensures SameAt(GoodAfter(c, p, r, good, n), good, m)
  {
  }

  /** At the end the winning files are exactly those the view was read from. */
  lemma {:induction false} SeenWins(c: Codec, listing: seq<Bytes>, names: seq<Bytes>, seen: map<Bytes, Bytes>)
    requires Seen(c, names, |names|, seen)
    requires forall n :: n in names <==> n in listing && UrlOf(c, n).Some?
    requires forall i, j | 0 <= i <= j < |names| :: Sooner(c, names[i], names[j])
    ensures forall url :: url in seen <==> exists n :: n in listing && UrlOf(c, n) == Some(url)
    ensures forall n :: Won(c, seen, n) <==> Wins(c, listing, n)
  {
    hide Sooner;
    forall url | url in seen ensures Wins(c, listing, seen[url]) {
      var i :| i < |names| && First(c, names, i) && names[i] == seen[url];
      forall m | m in listing && UrlOf(c, m) == UrlOf(c, seen[url]) ensures Sooner(c, seen[url], m) {
        var j :| 0 <= j < |names| && names[j] == m;
        assert i <= j;
      }
    }
    forall url | exists n :: n in listing && UrlOf(c, n) == Some(url) ensures url in seen {
      var n :| n in listing && UrlOf(c, n) == Some(url);
      var j :| 0 <= j < |names| && names[j] == n;
      assert UrlOf(c, names[j]).value in seen;
    }
    forall n | Wins(c, listing, n) ensures Won(c, seen, n) {
      OneWinner(c, listing, seen[UrlOf(c, n).value], n);
    }
  }

  lemma SoFarEnds(c: Codec, p: Policy, r: Registry, before: map<Bytes, DatabaseConfig>, listing: seq<Bytes>,
                  view: map<Bytes, DatabaseConfig>, seen: map<Bytes, Bytes>, good: map<Bytes, DatabaseConfig>)
    requires ReadSoFar(c, p, r, before, view, seen, good)
    requires forall n | n in listing :: n in r.files
    requires forall url :: url in seen <==> exists n :: n in listing && UrlOf(c, n) == Some(url)
    requires forall n :: Won(c, seen, n) <==> Wins(c, listing, n)
    ensures IsView(c, p, r, before, listing, view)
    ensures IsGood(c, p, r, before, listing, map n | n in good && Won(c, seen, n) :: good[n])
  {
    hide Wins, Effective, GoodAfter, UrlOf;
  }

  /* The departure on concrete files. */

  const FILE: Bytes := [1]

  const OVERRIDE := DatabaseConfig(Some([Gc]), 0)

  /** Names stand for themselves, the body [7] asks for garbage collection alone, and no
      other body parses. */
  const PLAIN := Codec(
    n => Some(n), n => Some(n), (n, e) => [], b => if b == [7] then Some(OVERRIDE) else None,
    (p, d) => true, e => [], b => None)

  function OneFile(body: Bytes): Registry {
    Registry(map[FILE := Blob(body, None)], {})
  }

  lemma FileWins()
    ensures Wins(PLAIN, [FILE], FILE) && UrlOf(PLAIN, FILE) == Some(FILE)
  {
    LexTotal(FILE, FILE);
  }

  lemma HonestFile(body: Bytes)
    ensures Honest(PLAIN, OneFile(body))
    ensures forall n | n in [FILE] :: n in OneFile(body).files
  {
  }

  function FilePoll(body: Bytes): Polled {
    Polled(DEFAULT_POLICY, [FILE], OneFile(body))
  }

  function Emptied(overridden: bool): seq<Polled> {
    if overridden then [FilePoll([7]), FilePoll([])] else [FilePoll([])]
  }

  lemma EmptiedFallsBack(overridden: bool)
    ensures (forall q | q in Emptied(overridden) :: Listed(q)) && Listed(FilePoll([9]))
    ensures var m := MemoryAfter(PLAIN, Emptied(overridden));
            && Effective(PLAIN, DEFAULT_POLICY, OneFile([9]), m.good, FILE)
               == (if overridden then OVERRIDE else DISABLED)
            && Effective(PLAIN, DEFAULT_POLICY, OneFile([9]), m.documented, FILE) == DEFAULT_DATABASE
  {
    FileWins();
    HonestFile([7]);
    HonestFile([]);
    HonestFile([9]);
    if overridden {
      OverrideComesBack(PLAIN, FilePoll([7]), FilePoll([]), FilePoll([9]), FILE);
    } else {
      BlankThenUnusable(PLAIN, FilePoll([]), FilePoll([9]), FILE);
    }
  }

  /** What a view of the one file holds. */
  lemma FileView(good: map<Bytes, DatabaseConfig>, body: Bytes, view: map<Bytes, DatabaseConfig>)
    requires Listed(FilePoll(body)) && IsView(PLAIN, DEFAULT_POLICY, OneFile(body), good, [FILE], view)
    ensures view == map[FILE := Effective(PLAIN, DEFAULT_POLICY, OneFile(body), good, FILE)]
  {
    hide Effective, Sooner;
    FileWins();
    forall url | url in view ensures url == FILE {}
  }

  /** An override, then an empty file, then garbage: the override comes back. Without
      the override, the database is disabled. Documented is the default for both. */
  method EmptiedThenGarbled(overridden: bool) returns (p: ConfigPoller)
    ensures p.Valid() && FILE in p.databases
    ensures p.databases[FILE] == if overridden then OVERRIDE else DISABLED
    ensures Listed(FilePoll([9])) && (forall q | q in Emptied(overridden) :: Listed(q))
    ensures p.history == Emptied(overridden) + [FilePoll([9])]
    ensures ViewBy(PLAIN, DEFAULT_POLICY, OneFile([9]), MemoryAfter(PLAIN, Emptied(overridden)).documented, [FILE])
            == map[FILE := DEFAULT_DATABASE]
  {
    p := new ConfigPoller(PLAIN);
    HonestFile([7]);
    HonestFile([]);
    HonestFile([9]);
    EmptiedFallsBack(overridden);
    hide MemoryAfter, IsView, IsGood, Effective, ViewBy;
    if overridden {
      p.Poll(NotFound, Some([FILE]), OneFile([7]));
    }
    p.Poll(NotFound, Some([FILE]), OneFile([]));
    assert p.history == Emptied(overridden);
    p.Poll(NotFound, Some([FILE]), OneFile([9]));
    FileView(MemoryAfter(PLAIN, Emptied(overridden)).good, [9], p.databases);
    ghost var documented := MemoryAfter(PLAIN, Emptied(overridden)).documented;
    FileView(documented, [9], ViewBy(PLAIN, DEFAULT_POLICY, OneFile([9]), documented, [FILE]));
  }
}
