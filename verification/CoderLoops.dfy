/** The range coder's macros as loops over the output buffer and the input. */
module CoderLoops {
  import opened Words
  import opened CarrylessCoder
  import opened Arithmetic

  /** The exclusive-or of two words, bit by bit. */
  function Xor(a: nat, b: nat): nat
    decreases a + b
  {
    if a == 0 && b == 0 then 0 else (a + b) % 2 + 2 * Xor(a / 2, b / 2)
  }

  lemma {:induction false} XorZero(a: nat, b: nat)
    ensures Xor(a, b) == 0 <==> a == b
    decreases a + b
  {
    if a != 0 || b != 0 {
      XorZero(a / 2, b / 2);
    }
  }

  /** x >> k */
  function Shifted(x: nat, k: nat): nat {
    if k == 0 then x else Shifted(x / 2, k - 1)
  }

  lemma {:induction false} ShiftDivides(x: nat, k: nat)
    ensures Shifted(x, k) == x / Power(k)
    decreases k
  {
    if k > 0 {
      ShiftDivides(x / 2, k - 1);
      HalveFirst(x, Power(k - 1));
    }
  }

  lemma HalveFirst(x: nat, d: nat)
    requires d > 0
    ensures x / (2 * d) == x / 2 / d
  {
    var q := x / 2 / d;
    DivMod(x / 2, d);
    assert q * (2 * d) == 2 * (q * d) && (q + 1) * (2 * d) == 2 * (q * d) + 2 * d;
    QuotientBetween(x, 2 * d, q, q + 1);
  }

  /** Shifting an exclusive-or is the exclusive-or of what is shifted. */
  lemma {:induction false} XorShifted(a: nat, b: nat, k: nat)
    ensures Shifted(Xor(a, b), k) == Xor(Shifted(a, k), Shifted(b, k))
    decreases k
  {
    if k > 0 {
      XorShifted(a / 2, b / 2, k - 1);
      assert Xor(a, b) / 2 == Xor(a / 2, b / 2);
    }
  }

  lemma PowerOf24()
    ensures Power(24) == TOP
  {
    assert Power(8) == 0x100;
    assert Power(16) == 0x1_0000;
  }

  /** (low ^ (low + range)) >= TOP in 32-bit words: the two ends of the interval differ in their top byte. */
  lemma TopByteTest(c: Coder)
    ensures Xor(c.low, (c.low + c.range) % WORD) >= TOP <==> !SameTop(c)
  {
    hide Xor, Shifted;
    var high := (c.low + c.range) % WORD;
    PowerOf24();
    XorShifted(c.low, high, 24);
    ShiftDivides(c.low, 24);
    ShiftDivides(high, 24);
    ShiftDivides(Xor(c.low, high), 24);
    XorZero(c.low / TOP, high / TOP);
  }

  lemma Peel(s: seq<byte>, k: nat, b: byte, rest: seq<byte>)
    requires k <= |s| && s[k..] == [b] + rest
    ensures k < |s| && s[k] == b && s[k + 1..] == rest && s[..k + 1] == s[..k] + [b]
  {
    assert s[k] == s[k..][0];
    assert s[k + 1..] == s[k..][1..];
  }

  /** Narrowing, in the order in which the macro computes it. */
  lemma NarrowWords(low: uint32, range: uint32, under: nat, count: nat, total: nat)
    requires Ready(Coder(low, range)) && Codable(Slot(under, count, total))
    ensures 0 < total && 0 < range / total < WORD
    ensures var c := Narrow(Coder(low, range), Slot(under, count, total));
      Inv(c) && c.low == low + under * (range / total) && c.range == range / total * count
  {
    var e := Slot(under, count, total);
    SlotFits(range, e);
    var r := range / total;
    assert r <= e.count * r by {
      MulMonotone(1, e.count, r);
    }
    assert 0 <= e.under * r;
  }

  /** ENET_RANGE_CODER_ENCODE; ok is false when the output buffer is full, where compress returns 0. */
  method EncodeSlot(low0: uint32, range0: uint32, under: nat, count: nat, total: nat, out: array<byte>, n0: nat)
      returns (ok: bool, low: uint32, range: uint32, n: nat)
    requires Ready(Coder(low0, range0)) && Codable(Slot(under, count, total)) && n0 <= out.Length
    modifies out
    ensures var r := Settle(Narrow(Coder(low0, range0), Slot(under, count, total)));
      && (ok <==> n0 + |r.0| <= out.Length)
      && (ok ==> Coder(low, range) == r.1 && n == n0 + |r.0| && out[..n] == old(out[..n0]) + r.0)
  {
    hide *;
    NarrowWords(low0, range0, under, count, total);
    range := range0 / total;
    low := low0 + under * range;
    range := range * count;
    ok, low, range, n := SettleInto(low, range, out, n0);
  }

  /** The loop of ENET_RANGE_CODER_ENCODE. */
  method SettleInto(low0: uint32, range0: uint32, out: array<byte>, n0: nat)
      returns (ok: bool, low: uint32, range: uint32, n: nat)
    requires Inv(Coder(low0, range0)) && n0 <= out.Length
    modifies out
    ensures var r := Settle(Coder(low0, range0));
      && (ok <==> n0 + |r.0| <= out.Length)
      && (ok ==> Coder(low, range) == r.1 && n == n0 + |r.0| && out[..n] == old(out[..n0]) + r.0)
  {
    hide Settle, Xor;
    ghost var goal, before := Settle(Coder(low0, range0)), out[..n0];
    low, range, n := low0, range0, n0;
    while true
      invariant Inv(Coder(low, range)) && n0 <= n <= out.Length
      invariant n - n0 <= |goal.0| && out[..n] == before + goal.0[..n - n0]
      invariant Settle(Coder(low, range)) == (goal.0[n - n0..], goal.1)
      decreases SettleRank(Coder(low, range))
    {
      ghost var d := Coder(low, range);
      SettleStep(d);
      TopByteTest(d);
      if Xor(low, (low + range) % WORD) >= TOP {
        if range >= BOTTOM {
          break;
        }
        range := (WORD - low) % BOTTOM;
      }
      Peel(goal.0, n - n0, low / TOP, Settle(Shift(Squeeze(d))).0);
      if n >= out.Length {
        return false, low, range, n;
      }
      out[n] := low / TOP;
      n := n + 1;
      range := range * 0x100 % WORD;
      low := low * 0x100 % WORD;
      assert Coder(low, range) == Shift(Squeeze(d));
    }
    ok := true;
  }

  /** One turn of the settling loop. */
  lemma SettleStep(c: Coder)
    requires Inv(c)
    ensures Settled(c) ==> Settle(c) == ([], c)
    ensures !Settled(c) ==> var d := Shift(Squeeze(c));
      && Inv(d) && SettleRank(d) < SettleRank(c)
      && Settle(c) == ([c.low / TOP] + Settle(d).0, Settle(d).1)
  {
    if !Settled(c) {
      ShiftKeepsInv(c);
    }
  }

  /** The same for the decoder, which shifts in the next byte. */
  lemma DecoderStep(low: uint32, range: uint32, code: uint32, input: seq<byte>, pos: nat)
    requires Inv(Coder(low, range)) && pos <= |input|
    ensures var d := DecoderOf(low, range, code, input, pos);
      if Settled(Coder(low, range)) then DecoderSettle(d) == d
      else
        var s := Shift(Squeeze(Coder(low, range)));
        && Inv(s) && SettleRank(s) < SettleRank(Coder(low, range))
        && if pos < |input| then DecoderSettle(d) == DecoderSettle(DecoderOf(s.low, s.range, ShiftIn(code, input[pos]), input, pos + 1))
           else DecoderSettle(d) == DecoderSettle(DecoderOf(s.low, s.range, ShiftIn(code, 0), input, pos))
  {
    hide Settle, Shift, Squeeze, SameTop;
    if !Settled(Coder(low, range)) {
      ShiftKeepsInv(Coder(low, range));
      var rest := input[pos..];
      if pos < |input| {
        assert rest[0] == input[pos] && Drop(rest, 1) == input[pos + 1..];
      } else {
        assert Drop(rest, 1) == rest == [];
      }
    }
  }

  function ShiftIn(code: uint32, b: byte): (w: uint32) {
    code * 0x100 % WORD + b
  }

  /** One turn in words: the interval is cut if its ends differ in the top byte, and shifted. */
  lemma TurnInWords(low: uint32, range: uint32)
    requires Inv(Coder(low, range)) && !Settled(Coder(low, range))
    ensures Shift(Squeeze(Coder(low, range))) ==
      Coder(low * 0x100 % WORD, (if SameTop(Coder(low, range)) then range else (WORD - low) % BOTTOM) * 0x100 % WORD)
  {
    hide SameTop;
  }

  /** ENET_RANGE_CODER_FLUSH */
  method FlushLow(low0: uint32, out: array<byte>, n0: nat) returns (ok: bool, n: nat)
    requires n0 <= out.Length
    modifies out
    ensures ok <==> n0 + |Flush(low0)| <= out.Length
    ensures ok ==> n == n0 + |Flush(low0)| && out[..n] == old(out[..n0]) + Flush(low0)
  {
    var low: uint32 := low0;
    ghost var goal, before := Flush(low0), out[..n0];
    n := n0;
    while low != 0
      invariant n0 <= n <= out.Length && n - n0 <= |goal|
      invariant out[..n] == before + goal[..n - n0] && Flush(low) == goal[n - n0..]
      decreases FlushRank(low)
    {
      FlushRankDrops(low);
      if n >= out.Length {
        return false, n;
      }
      Peel(goal, n - n0, low / TOP, Flush(low * 0x100 % WORD));
      out[n] := low / TOP;
      n := n + 1;
      low := low * 0x100 % WORD;
    }
    ok := true;
  }

  /** ENET_RANGE_CODER_SEED */
  method SeedCode(input: seq<byte>) returns (code: uint32, pos: nat)
    ensures pos <= |input| && code == Seed(input).code && input[pos..] == Seed(input).rest
  {
    code, pos := 0, 0;
    if pos < |input| {
      code := code + TOP * input[pos];
      pos := pos + 1;
    }
    if pos < |input| {
      code := code + BOTTOM * input[pos];
      pos := pos + 1;
    }
    if pos < |input| {
      var b: int := input[pos];
      code := code + b * 0x100;
      pos := pos + 1;
    }
    if pos < |input| {
      code := code + input[pos];
      pos := pos + 1;
    }
  }

  /** The decoder's words as locals, and its input as a position. */
  ghost function DecoderOf(low: uint32, range: uint32, code: uint32, input: seq<byte>, pos: nat): Decoder
    requires pos <= |input|
  {
    Decoder(low, range, code, input[pos..])
  }

  /** ENET_RANGE_CODER_READ, stored in a 16-bit word; the range is divided by the total for good. */
  method ReadCode(low: uint32, range: uint32, code: uint32, total: uint16, ghost d: Decoder)
      returns (read: uint16, divided: uint32)
    requires Ready(Coder(low, range)) && 0 < total && d.low == low && d.range == range && d.code == code
    ensures divided == range / total && read == Read(d, total) % 0x1_0000
  {
    SlotFits(range, Slot(0, total, total));
    NarrowWords(low, range, 0, total, total);
    divided := range / total;
    read := (code - low) % WORD / divided % 0x1_0000;
  }

  /** ENET_RANGE_CODER_DECODE; the range was already divided by the total when the code was read. */
  method DecodeSlot(low0: uint32, ghost range0: uint32, code0: uint32, input: seq<byte>, pos0: nat, under: nat, count: nat,
                    ghost total: nat, divided: uint32)
      returns (low: uint32, range: uint32, code: uint32, pos: nat)
    requires pos0 <= |input| && Ready(Coder(low0, range0)) && Codable(Slot(under, count, total))
    requires divided == range0 / total
    ensures pos <= |input|
    ensures DecoderOf(low, range, code, input, pos)
         == Advance(DecoderOf(low0, range0, code0, input, pos0), Slot(under, count, total))
  {
    hide Narrow, Inv, Ready, Codable, Settle, DecoderSettle, Advance, SettleRank;
    NarrowWords(low0, range0, under, count, total);
    AdvanceSettles(DecoderOf(low0, range0, code0, input, pos0), Slot(under, count, total), low0 + under * divided, divided * count);
    low, range, code, pos := SettleOver(low0 + under * divided, divided * count, code0, input, pos0);
  }

  lemma AdvanceSettles(d: Decoder, e: Slot, low: uint32, range: uint32)
    requires Ready(d.Interval()) && Codable(e) && Inv(Coder(low, range)) && Narrow(d.Interval(), e) == Coder(low, range)
    ensures Advance(d, e) == DecoderSettle(Decoder(low, range, d.code, d.rest))
  {
    hide DecoderSettle, Narrow;
  }

  /** The loop of ENET_RANGE_CODER_DECODE. */
  method SettleOver(low0: uint32, range0: uint32, code0: uint32, input: seq<byte>, pos0: nat)
      returns (low: uint32, range: uint32, code: uint32, pos: nat)
    requires Inv(Coder(low0, range0)) && pos0 <= |input|
    ensures pos <= |input|
    ensures DecoderOf(low, range, code, input, pos) == DecoderSettle(DecoderOf(low0, range0, code0, input, pos0))
  {
    hide Xor, SameTop, DecoderSettle, Shift, Squeeze, Inv, SettleRank;
    low, range, code, pos := low0, range0, code0, pos0;
    while true
      invariant Inv(Coder(low, range)) && pos <= |input|
      invariant DecoderSettle(DecoderOf(low, range, code, input, pos)) == DecoderSettle(DecoderOf(low0, range0, code0, input, pos0))
      decreases SettleRank(Coder(low, range))
    {
      DecoderStep(low, range, code, input, pos);
      TopByteTest(Coder(low, range));
      if Xor(low, (low + range) % WORD) >= TOP {
        if range >= BOTTOM {
          break;
        }
        TurnInWords(low, range);
        range := (WORD - low) % BOTTOM;
      } else {
        TurnInWords(low, range);
      }
      code := code * 0x100 % WORD;
      if pos < |input| {
        code := code + input[pos];
        pos := pos + 1;
      }
      range := range * 0x100 % WORD;
      low := low * 0x100 % WORD;
    }
  }
}
