/** Element identifiers. The editors stamp a new element `prefix + Date.now()`
    (`c-1718000000000`); the generation mapper stamps element `i` of a reply
    `prefix + Date.now() + "-" + i` (`c-1718000000000-3`). The clock reading is a
    parameter of every operation that needs one. */
module Ids {

  function Digit(d: nat): (c: char)
    requires d < 10
    ensures '0' <= c <= '9'
  {
    (('0' as int) + d) as char
  }

  /** The decimal text of `n`, as a template literal renders a non-negative integer. */
  function Decimal(n: nat): (s: string)
    ensures |s| >= 1
    ensures n >= 10 ==> |s| >= 2
    ensures forall i :: 0 <= i < |s| ==> '0' <= s[i] <= '9'
  {
    if n < 10 then [Digit(n)] else Decimal(n / 10) + [Digit(n % 10)]
  }

  /** Distinct numbers have distinct decimal texts. */
  lemma {:induction false} DecimalInjective(a: nat, b: nat)
    requires Decimal(a) == Decimal(b)
    ensures a == b
  {
    if a >= 10 && b >= 10 {
      var da, db := Decimal(a), Decimal(b);
      assert da[..|da| - 1] == Decimal(a / 10);
      assert db[..|db| - 1] == Decimal(b / 10);
      DecimalInjective(a / 10, b / 10);
      assert Digit(a % 10) == da[|da| - 1] == db[|db| - 1] == Digit(b % 10);
    }
  }

  /** The id an editor gives an element it adds by hand (`c-${Date.now()}`). */
  function ManualId(prefix: string, now: nat): string
  {
    prefix + Decimal(now)
  }

  /** The id the generation mapper gives element `i` (`c-${Date.now()}-${i}`). */
  function MappedId(prefix: string, now: nat, i: nat): string
  {
    prefix + Decimal(now) + "-" + Decimal(i)
  }

  /** Splitting at the first `-`: a text before a `-` that itself holds no `-` is determined. */
  lemma SplitAtDash(x1: string, y1: string, x2: string, y2: string)
    requires '-' !in x1 && '-' !in x2
    requires x1 + "-" + y1 == x2 + "-" + y2
    ensures x1 == x2 && y1 == y2
  {
    var s := x1 + "-" + y1;
    assert s[|x1|] == '-' && s[|x2|] == '-';
    assert forall i :: 0 <= i < |x1| ==> s[i] == x1[i];
    assert forall i :: 0 <= i < |x2| ==> s[i] == x2[i];
    assert |x1| == |x2|;
    assert x1 == s[..|x1|] == x2;
    assert y1 == s[|x1| + 1..] == y2;
  }

  /** A mapped id determines both the clock reading and the index it was built from. */
  lemma MappedIdInjective(prefix: string, t1: nat, i: nat, t2: nat, j: nat)
    requires MappedId(prefix, t1, i) == MappedId(prefix, t2, j)
    ensures t1 == t2 && i == j
  {
    var s1, s2 := MappedId(prefix, t1, i), MappedId(prefix, t2, j);
    assert s1[|prefix|..] == Decimal(t1) + "-" + Decimal(i);
    assert s2[|prefix|..] == Decimal(t2) + "-" + Decimal(j);
    SplitAtDash(Decimal(t1), Decimal(i), Decimal(t2), Decimal(j));
    DecimalInjective(t1, t2);
    DecimalInjective(i, j);
  }

  /** The ids of one mapped list are pairwise distinct whatever the clock reads: the index
      suffix alone separates them. */
  lemma MappedIdsDistinct(prefix: string, clock: nat -> nat, n: nat)
    ensures forall i, j :: 0 <= i < j < n ==> MappedId(prefix, clock(i), i) != MappedId(prefix, clock(j), j)
  {
    forall i, j | 0 <= i < j < n
      ensures MappedId(prefix, clock(i), i) != MappedId(prefix, clock(j), j)
    {
      if MappedId(prefix, clock(i), i) == MappedId(prefix, clock(j), j) {
        MappedIdInjective(prefix, clock(i), i, clock(j), j);
      }
    }
  }

  /** An id added by hand never equals a generated one with the same prefix: after the
      prefix, the first holds digits only and the second holds a `-`. */
  lemma ManualIdNotMapped(prefix: string, now: nat, t: nat, i: nat)
    ensures ManualId(prefix, now) != MappedId(prefix, t, i)
  {
    var m, g := ManualId(prefix, now), MappedId(prefix, t, i);
    var k := |prefix| + |Decimal(t)|;
    assert g[k] == '-';
  }
}
