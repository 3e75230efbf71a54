/** The option type every module shares, and the ends of a finite set of ids, which
    the source's ordered maps and sets give for free. */
module Wrappers {

  datatype Option<+T> = None | Some(value: T)

  function Max(a: int, b: int): int {
    if a >= b then a else b
  }

  function Min(a: int, b: int): int {
    if a <= b then a else b
  }

  lemma {:induction false} HasLargest(s: set<nat>) returns (m: nat)
    requires s != {}
    ensures m in s
    ensures forall x | x in s :: x <= m
    decreases s
  {
    var y: nat :| y in s;
    m := y;
    if s - {y} != {} {
      var top := HasLargest(s - {y});
      m := Max(y, top);
    }
    forall x | x in s ensures x <= m {
      assert x == y || x in s - {y};
    }
  }

  /** The largest member of a nonempty set of ids. */
  function MaxOf(s: set<nat>): (m: nat)
    requires s != {}
    ensures m in s
    ensures forall x | x in s :: x <= m
  {
    assert exists m: nat :: m in s && forall x | x in s :: x <= m by { var m := HasLargest(s); }
    var m: nat :| m in s && forall x | x in s :: x <= m;
    m
  }

  lemma MaxOfIs(s: set<nat>, m: nat)
    requires m in s
    requires forall x | x in s :: x <= m
    ensures MaxOf(s) == m
  {
  }

  lemma {:induction false} HasSmallest(s: set<nat>) returns (m: nat)
    requires s != {}
    ensures m in s
    ensures forall x | x in s :: m <= x
    decreases s
  {
    var y: nat :| y in s;
    m := y;
    if s - {y} != {} {
      var low := HasSmallest(s - {y});
      m := Min(y, low);
    }
    forall x | x in s ensures m <= x {
      assert x == y || x in s - {y};
    }
  }

  /** The smallest member of a nonempty set of ids: the next key of an ordered map. */
  function MinOf(s: set<nat>): (m: nat)
    requires s != {}
    ensures m in s
    ensures forall x | x in s :: m <= x
  {
    assert exists m: nat :: m in s && forall x | x in s :: m <= x by { var m := HasSmallest(s); }
    var m: nat :| m in s && forall x | x in s :: m <= x;
    m
  }
}
