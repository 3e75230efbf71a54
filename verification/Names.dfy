/** Object names (src/mirror/layout.rs): ids in decimal, padded with zeros to twenty
    digits, so that names sort as the ids do. */
module Names {
  import opened Wrappers

  const U64_LIMIT: nat := 0x1_0000_0000_0000_0000

  function DigitChar(d: nat): char
    requires d < 10
  {
    '0' + (d as char)
  }

  predicate IsDigit(c: char) {
    '0' <= c <= '9'
  }

  function DigitValue(c: char): (d: nat)
    requires IsDigit(c)
    ensures d < 10
  {
    (c - '0') as nat
  }

  lemma DigitRoundTrip(d: nat)
    requires d < 10
    ensures IsDigit(DigitChar(d)) && DigitValue(DigitChar(d)) == d
  {
  }

  /** A number in decimal. */
  function Decimal(n: nat): (s: string)
    ensures |s| > 0
  {
    if n < 10 then [DigitChar(n)] else Decimal(n / 10) + [DigitChar(n % 10)]
  }

  function Zeros(k: nat): (s: string)
    ensures |s| == k
  {
    seq(k, _ => '0')
  }

  /** At least `width` digits, with zeros in front. */
  function Padded(n: nat, width: nat): string {
    var s := Decimal(n);
    if |s| >= width then s else Zeros(width - |s|) + s
  }

  function ManifestName(id: nat): string {
    Padded(id, 20) + ".manifest"
  }

  function WalName(id: nat): string {
    Padded(id, 20) + ".sst"
  }

  function ManifestRel(id: nat): string {
    "manifest/" + ManifestName(id)
  }

  function WalRel(id: nat): string {
    "wal/" + WalName(id)
  }

  function StripSuffix(s: string, suffix: string): (r: Option<string>)
    ensures r.Some? <==> |suffix| <= |s| && s[|s| - |suffix|..] == suffix
    ensures r.Some? ==> s == r.value + suffix
  {
    if |suffix| <= |s| && s[|s| - |suffix|..] == suffix then Some(s[..|s| - |suffix|]) else None
  }

  predicate AllDigits(s: string) {
    forall c | c in s :: IsDigit(c)
  }

  function Value(s: string): nat
    requires AllDigits(s)
  {
    if s == [] then 0 else Value(s[..|s| - 1]) * 10 + DigitValue(s[|s| - 1])
  }

  /** How a u64 is read from text: an optional plus sign, then digits and nothing else,
      in range. Leading zeros do not matter. */
  function ParseU64(s: string): Option<nat> {
    var digits := if s != [] && s[0] == '+' then s[1..] else s;
    if digits == [] || !AllDigits(digits) then None
    else if Value(digits) >= U64_LIMIT then None
    else Some(Value(digits))
  }

  function ParseManifestName(name: string): Option<nat> {
    match StripSuffix(name, ".manifest")
    case None => None
    case Some(stem) => ParseU64(stem)
  }

  function ParseWalName(name: string): Option<nat> {
    match StripSuffix(name, ".sst")
    case None => None
    case Some(stem) => ParseU64(stem)
  }

  function Pow10(k: nat): (p: nat)
    ensures p >= 1
  {
    if k == 0 then 1 else 10 * Pow10(k - 1)
  }

  /** Exactly `width` digits. */
  function Digits(n: nat, width: nat): (s: string)
    ensures |s| == width
  {
    if width == 0 then [] else Digits(n / 10, width - 1) + [DigitChar(n % 10)]
  }

  lemma {:induction false} DigitsValue(n: nat, width: nat)
    requires n < Pow10(width)
    ensures AllDigits(Digits(n, width)) && Value(Digits(n, width)) == n
  {
    if width > 0 {
      var front := Digits(n / 10, width - 1);
      DigitsValue(n / 10, width - 1);
      DigitRoundTrip(n % 10);
      assert Digits(n, width)[..width - 1] == front;
    }
  }

  lemma {:induction false} ZeroDigits(width: nat)
    ensures Digits(0, width) == Zeros(width)
  {
    if width > 0 {
      ZeroDigits(width - 1);
    }
  }

  lemma {:induction false} PaddedIsDigits(n: nat, width: nat)
    requires n < Pow10(width) && width > 0
    ensures Padded(n, width) == Digits(n, width)
  {
    if n < 10 {
      ZeroDigits(width - 1);
    } else {
      assert Pow10(1) == 10;
      PaddedIsDigits(n / 10, width - 1);
    }
  }

  lemma TwentyDigits()
    ensures U64_LIMIT <= Pow10(20)
  {
    assert Pow10(5) == 100000;
    assert Pow10(10) == 10000000000 by { assert Pow10(7) == 10000000; }
    assert Pow10(15) == 1000000000000000 by { assert Pow10(12) == 1000000000000; }
    assert Pow10(18) == 1000000000000000000;
    assert Pow10(20) == 100000000000000000000;
  }

  lemma StemIs(stem: string, suffix: string)
    ensures StripSuffix(stem + suffix, suffix) == Some(stem)
  {
    assert (stem + suffix)[|stem|..] == suffix && (stem + suffix)[..|stem|] == stem;
  }

  lemma PaddedParses(id: nat)
    requires id < U64_LIMIT
    ensures Padded(id, 20) == Digits(id, 20) && ParseU64(Padded(id, 20)) == Some(id)
  {
    TwentyDigits();
    PaddedIsDigits(id, 20);
    DigitsValue(id, 20);
    assert Digits(id, 20)[0] in Digits(id, 20);
  }

  /** Printing an id and parsing the name gives the id back. */
  lemma NamesRoundTrip(id: nat)
    requires id < U64_LIMIT
    ensures ParseManifestName(ManifestName(id)) == Some(id)
    ensures ParseWalName(WalName(id)) == Some(id)
  {
    StemIs(Padded(id, 20), ".manifest");
    StemIs(Padded(id, 20), ".sst");
    PaddedParses(id);
  }

  predicate Before(a: string, b: string) {
    if b == [] then false
    else if a == [] then true
    else a[0] < b[0] || (a[0] == b[0] && Before(a[1..], b[1..]))
  }

  lemma {:induction false} BeforePrefix(p: string, a: string, b: string)
    ensures Before(p + a, p + b) <==> Before(a, b)
  {
    if p == [] {
      assert p + a == a && p + b == b;
    } else {
      assert (p + a)[1..] == p[1..] + a && (p + b)[1..] == p[1..] + b;
      BeforePrefix(p[1..], a, b);
    }
  }

  /** Strings of one length compare before anything that follows them. */
  lemma {:induction false} BeforeExtends(a: string, b: string, x: string, y: string)
    requires |a| == |b| && a != b
    ensures Before(a + x, b + y) <==> Before(a, b)
  {
    assert (a + x)[1..] == a[1..] + x && (b + y)[1..] == b[1..] + y;
    if a[0] == b[0] {
      assert a == [a[0]] + a[1..] && b == [b[0]] + b[1..];
      BeforeExtends(a[1..], b[1..], x, y);
    }
  }

  lemma {:induction false} DigitsSort(m: nat, n: nat, width: nat)
    requires m < Pow10(width) && n < Pow10(width)
    ensures Before(Digits(m, width), Digits(n, width)) <==> m < n
    ensures Digits(m, width) == Digits(n, width) <==> m == n
    decreases width
  {
    if width > 0 {
      var a, b := Digits(m / 10, width - 1), Digits(n / 10, width - 1);
      var x, y := [DigitChar(m % 10)], [DigitChar(n % 10)];
      DigitsSort(m / 10, n / 10, width - 1);
      DigitRoundTrip(m % 10);
      DigitRoundTrip(n % 10);
      if m / 10 == n / 10 {
        BeforePrefix(a, x, y);
        assert Before(x, y) <==> x[0] < y[0];
      } else {
        assert (a + x)[..width - 1] == a && (b + y)[..width - 1] == b;
        BeforeExtends(a, b, x, y);
      }
    }
  }

  /** Names sort as the ids do. */
  lemma NamesSort(m: nat, n: nat)
    requires m < U64_LIMIT && n < U64_LIMIT
    ensures Before(ManifestRel(m), ManifestRel(n)) <==> m < n
    ensures Before(WalRel(m), WalRel(n)) <==> m < n
  {
    TwentyDigits();
    PaddedParses(m);
    PaddedParses(n);
    DigitsSort(m, n, 20);
    BeforePrefix("manifest/", ManifestName(m), ManifestName(n));
    BeforePrefix("wal/", WalName(m), WalName(n));
    if m != n {
      BeforeExtends(Digits(m, 20), Digits(n, 20), ".manifest", ".manifest");
      BeforeExtends(Digits(m, 20), Digits(n, 20), ".sst", ".sst");
    } else {
      BeforeIrreflexive(ManifestRel(m));
      BeforeIrreflexive(WalRel(m));
    }
  }

  lemma {:induction false} BeforeIrreflexive(a: string)
    ensures !Before(a, a)
  {
    if a != [] { BeforeIrreflexive(a[1..]); }
  }

  lemma TenSplit(v: nat, d: nat)
    requires d < 10
    ensures (v * 10 + d) / 10 == v && (v * 10 + d) % 10 == d
  {
  }

  lemma {:induction false} DigitsOfValue(s: string)
    requires AllDigits(s)
    ensures Value(s) < Pow10(|s|) && Digits(Value(s), |s|) == s
  {
    if s != [] {
      var front, last := s[..|s| - 1], s[|s| - 1];
      assert last in s && forall c | c in front :: c in s;
      DigitsOfValue(front);
      assert s == front + [last];
      TenSplit(Value(front), DigitValue(last));
    }
  }

  /** Other spellings parse too: of the names that parse to an id, the printed one is
      exactly the one with twenty digits. */
  lemma PrintedExactlyWhenTwentyDigits(name: string, id: nat)
    requires ParseManifestName(name) == Some(id)
    ensures name == ManifestName(id) <==> |name| == 20 + |".manifest"| && IsDigit(name[0])
  {
    var stem := StripSuffix(name, ".manifest").value;
    PaddedParses(id);
    StemIs(Padded(id, 20), ".manifest");
    DigitsValue20(id);
    if |name| == 20 + |".manifest"| && IsDigit(name[0]) {
      assert stem[0] == name[0] && |stem| == 20;
      DigitsOfValue(stem);
    }
  }

  lemma DigitsValue20(id: nat)
    requires id < U64_LIMIT
    ensures AllDigits(Digits(id, 20)) && IsDigit(Digits(id, 20)[0])
  {
    TwentyDigits();
    DigitsValue(id, 20);
    assert Digits(id, 20)[0] in Digits(id, 20);
  }
}
