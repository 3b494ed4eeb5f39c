/** Frequency tables over the 256 byte values, and their cumulative sums. */
module Frequencies {
  import opened Words

  type Table = f: seq<nat> | |f| == 256 witness seq(256, _ => 0)

  function Zeros(): Table { seq(256, _ => 0) }

  function Sum(f: Table, lo: nat, hi: nat): (n: nat)
    requires lo <= hi <= 256
    decreases hi, f  // naming f keeps the verifier from unrolling sums up to a literal
  {
    if lo == hi then 0 else Sum(f, lo, hi - 1) + f[hi - 1]
  }

  function Mass(f: Table): (n: nat) {
    Sum(f, 0, 256)
  }

  lemma SumEmpty(f: Table, lo: nat)
    requires lo <= 256
    ensures Sum(f, lo, lo) == 0
  {
  }

  lemma SumNext(f: Table, lo: nat, v: nat)
    requires lo <= v < 256
    ensures Sum(f, lo, v + 1) == Sum(f, lo, v) + f[v]
  {
  }

  lemma {:induction false} SumSplit(f: Table, lo: nat, mid: nat, hi: nat)
    requires lo <= mid <= hi <= 256
    ensures Sum(f, lo, hi) == Sum(f, lo, mid) + Sum(f, mid, hi)
    decreases hi
  {
    if mid < hi {
      SumSplit(f, lo, mid, hi - 1);
    }
  }

  lemma {:induction false} SumUpdate(f: Table, v: byte, x: nat, lo: nat, hi: nat)
    requires lo <= hi <= 256
    ensures Sum(f[v := x], lo, hi) == Sum(f, lo, hi) + (if lo <= v < hi then x - f[v] else 0)
    decreases hi
  {
    if lo < hi {
      SumUpdate(f, v, x, lo, hi - 1);
    }
  }

  lemma {:induction false} SumZero(f: Table, lo: nat, hi: nat)
    requires lo <= hi <= 256
    ensures Sum(f, lo, hi) == 0 <==> forall v :: lo <= v < hi ==> f[v] == 0
    decreases hi
  {
    if lo < hi {
      SumZero(f, lo, hi - 1);
    }
  }

  lemma ZerosMass()
    ensures Mass(Zeros()) == 0
  {
    assert forall v: byte :: Zeros()[v] == 0;
    SumZero(Zeros(), 0, 256);
  }

  lemma {:induction false} SumAtLeast(f: Table, v: byte, lo: nat, hi: nat)
    requires lo <= v < hi <= 256
    ensures f[v] <= Sum(f, lo, hi)
    decreases hi
  {
    if v < hi - 1 {
      SumAtLeast(f, v, lo, hi - 1);
    }
  }

  lemma MassBounds(f: Table, v: nat)
    requires v <= 256
    ensures Sum(f, 0, v) <= Mass(f)
  {
    SumSplit(f, 0, v, 256);
  }

  /** n -= n >> 1, value by value. */
  function Halve(f: Table): (g: Table) {
    seq(256, v requires 0 <= v < 256 => f[v] - f[v] / 2)
  }

  lemma {:induction false} HalveSum(f: Table, lo: nat, hi: nat)
    requires lo <= hi <= 256
    ensures Sum(f, lo, hi) <= 2 * Sum(Halve(f), lo, hi) <= Sum(f, lo, hi) + (hi - lo)
    decreases hi
  {
    if lo < hi {
      HalveSum(f, lo, hi - 1);
    }
  }

  lemma HalvedFits(f: Table, lo: nat, hi: nat)
    requires lo <= hi <= 256
    ensures Sum(Halve(f), lo, hi) <= Mass(f)
  {
    HalvedLess(f, lo, hi);
    SumSplit(f, 0, lo, hi);
    SumSplit(f, 0, hi, 256);
  }

  lemma {:induction false} HalvedLess(f: Table, lo: nat, hi: nat)
    requires lo <= hi <= 256
    ensures Sum(Halve(f), lo, hi) <= Sum(f, lo, hi)
    decreases hi
  {
    if lo < hi {
      HalvedLess(f, lo, hi - 1);
    }
  }

  /** Where the slot of v begins when every value has weight minimum besides its count. */
  function Below(f: Table, minimum: nat, v: nat): (n: nat)
    requires v <= 256
  {
    v * minimum + Sum(f, 0, v)
  }

  lemma BelowZero(f: Table, minimum: nat)
    ensures Below(f, minimum, 0) == 0
  {
  }

  lemma BelowNext(f: Table, minimum: nat, v: byte)
    ensures Below(f, minimum, v + 1) == Below(f, minimum, v) + minimum + f[v]
  {
    assert (v + 1) * minimum == v * minimum + minimum;
  }

  lemma {:induction false} BelowMonotone(f: Table, minimum: nat, u: nat, v: nat)
    requires u <= v <= 256
    ensures Below(f, minimum, u) <= Below(f, minimum, v)
    decreases v
  {
    if u < v {
      BelowMonotone(f, minimum, u, v - 1);
      BelowNext(f, minimum, v - 1);
    }
  }

  /** code lies in the slot of v, or beyond all slots if v is 256. */
  ghost predicate InSlot(f: Table, minimum: nat, code: int, v: nat) {
    v <= 256 && Below(f, minimum, v) <= code && (v < 256 ==> code < Below(f, minimum, v + 1))
  }

  /** The value whose slot holds code. */
  function Find(f: Table, minimum: nat, code: nat, hi: nat): (v: byte)
    requires hi <= 256 && code < Below(f, minimum, hi)
    ensures InSlot(f, minimum, code, v)
    decreases hi, f
  {
    if Below(f, minimum, hi - 1) <= code then hi - 1 else Find(f, minimum, code, hi - 1)
  }

  /** The value code stands for, 256 if it lies beyond all slots. */
  ghost function Target(f: Table, minimum: nat, code: nat): (v: nat)
    ensures v <= 256 && InSlot(f, minimum, code, v)
    ensures if code < Below(f, minimum, 256) then v < 256 && v == Find(f, minimum, code, 256) else v == 256
  {
    if code < Below(f, minimum, 256) then Find(f, minimum, code, 256) else 256
  }

  lemma SlotUnique(f: Table, minimum: nat, code: int, u: byte, v: byte)
    requires InSlot(f, minimum, code, u) && InSlot(f, minimum, code, v)
    ensures u == v
  {
    if u < v {
      BelowMonotone(f, minimum, u + 1, v);
      assert false;
    } else if v < u {
      BelowMonotone(f, minimum, v + 1, u);
      assert false;
    }
  }

  /** The three-way comparison of the decoder's search. */
  lemma CompareSlot(f: Table, minimum: nat, code: int, v: nat, u: byte)
    requires InSlot(f, minimum, code, v)
    ensures Below(f, minimum, u + 1) <= code <==> u < v
    ensures code < Below(f, minimum, u) <==> v < u
  {
    if u < v {
      BelowMonotone(f, minimum, u, u + 1);
      BelowMonotone(f, minimum, u + 1, v);
    } else {
      BelowMonotone(f, minimum, v + 1, u + 1);
      if v < u {
        BelowMonotone(f, minimum, v + 1, u);
      }
    }
  }

  /** Where no value has a count, slots of minimum 1 are one code wide and lie side by side. */
  lemma GapSlot(f: Table, lo: nat, hi: nat, code: int, v: byte)
    requires lo <= v < hi <= 256 && Sum(f, lo, hi) == 0 && f[v] == 0 && InSlot(f, 1, code, v)
    ensures code == Below(f, 1, v) == Below(f, 1, lo) + (v - lo) == Below(f, 1, hi) - (hi - v)
  {
    BelowNext(f, 1, v);
    SumSplit(f, 0, lo, v);
    SumSplit(f, lo, v, hi);
    SumSplit(f, 0, v, hi);
  }

  /** With minimum 0 a value without a count has no slot. */
  lemma NoSlot(f: Table, code: int, v: byte)
    ensures InSlot(f, 0, code, v) ==> f[v] != 0
  {
    BelowNext(f, 0, v);
  }
}
