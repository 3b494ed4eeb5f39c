/** Fixed-width unsigned words. Arithmetic is on int; storing a result in one of
    these types is what proves that the C code's word does not wrap. */
module Words {
  const WORD := 0x1_0000_0000

  type byte = x: int | 0 <= x < 0x100
  type uint16 = x: int | 0 <= x < 0x1_0000
  type uint32 = x: int | 0 <= x < 0x1_0000_0000

  function Drop<T>(s: seq<T>, n: nat): (r: seq<T>) {
    if n <= |s| then s[n..] else []
  }
}

/** Multiplication and division by a variable. */
module Arithmetic {
  /** 2 to the k */
  function Power(k: nat): (p: nat)
    ensures p > 0
  {
    if k == 0 then 1 else 2 * Power(k - 1)
  }

  lemma MulMonotone(a: int, b: int, r: nat)
    requires a <= b
    ensures a * r <= b * r
  {
  }

  lemma DivMod(n: nat, r: nat)
    requires 0 < r
    ensures n == n / r * r + n % r
  {
  }

  lemma QuotientBetween(n: nat, r: nat, lo: nat, hi: nat)
    requires 0 < r && lo * r <= n < hi * r
    ensures lo <= n / r < hi
  {
    DivMod(n, r);
    var q := n / r;
    assert (q + 1) * r == q * r + r;
    if q < lo {
      MulMonotone(q + 1, lo, r);
      assert false;
    }
    if hi <= q {
      MulMonotone(hi, q, r);
      assert false;
    }
  }
}

module FiniteSets {
  /** The n numbers from a on. */
  function Interval(a: nat, n: nat): (s: set<nat>)
    ensures forall j :: j in s <==> a <= j < a + n
    ensures |s| == n
  {
    if n == 0 then {} else Interval(a, n - 1) + {a + n - 1}
  }

  lemma {:induction false} SubsetSize(a: set<nat>, b: set<nat>)
    requires a <= b
    ensures |a| <= |b|
  {
    if a != {} {
      var x :| x in a;
      SubsetSize(a - {x}, b - {x});
    }
  }
}

module Sums {
  function Sum(s: seq<nat>): nat {
    if s == [] then 0 else Sum(s[..|s| - 1]) + s[|s| - 1]
  }

  lemma {:induction false} SumUpdate(s: seq<nat>, i: nat, x: nat)
    requires i < |s|
    ensures Sum(s[i := x]) == Sum(s) - s[i] + x
  {
    var n := |s| - 1;
    if i < n {
      SumUpdate(s[..n], i, x);
      assert s[i := x][..n] == s[..n][i := x];
    } else {
      assert s[i := x][..n] == s[..n];
    }
  }

  lemma {:induction false} SumLeast(s: seq<nat>, i: nat)
    requires i < |s|
    ensures s[i] <= Sum(s)
  {
    if i < |s| - 1 {
      SumLeast(s[..|s| - 1], i);
    }
  }

  lemma {:induction false} SumOrder(s: seq<nat>, t: seq<nat>)
    requires |s| == |t| && forall i :: 0 <= i < |s| ==> s[i] <= t[i]
    ensures Sum(s) <= Sum(t)
  {
    if s != [] {
      SumOrder(s[..|s| - 1], t[..|t| - 1]);
    }
  }

  lemma {:induction false} SumZero(s: seq<nat>)
    ensures Sum(s) == 0 <==> forall i :: 0 <= i < |s| ==> s[i] == 0
  {
    if s != [] {
      SumZero(s[..|s| - 1]);
    }
  }

  lemma {:induction false} SumLinear(a: seq<nat>, b: seq<nat>, c: seq<nat>, k: nat)
    requires |a| == |b| == |c| && forall i :: 0 <= i < |a| ==> a[i] == b[i] + k * c[i]
    ensures Sum(a) == Sum(b) + k * Sum(c)
  {
    if a != [] {
      var n := |a| - 1;
      SumLinear(a[..n], b[..n], c[..n], k);
      assert k * (Sum(c[..n]) + c[n]) == k * Sum(c[..n]) + k * c[n];
    }
  }
}
