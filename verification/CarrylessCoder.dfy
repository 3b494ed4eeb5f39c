/** The carry-less 32-bit range coder of compress.c: an interval [low, low + range) that is
    narrowed to one slot of a frequency table and then settled, one emitted byte at a time. */
module CarrylessCoder {
  import opened Words
  import opened Arithmetic

  const TOP := 0x100_0000
  const BOTTOM := 0x1_0000

  /** One coding decision: the slot [under, under + count) of a table of size total. */
  datatype Slot = Slot(under: nat, count: nat, total: nat)

  predicate Codable(e: Slot) {
    0 < e.count && e.under + e.count <= e.total <= BOTTOM
  }

  datatype Coder = Coder(low: uint32, range: uint32)

  const START := Coder(0, WORD - 1)

  /** The interval is not empty and ends at or below 2^32; it reaches 2^32 only from the last
      of the 256 top-byte blocks, so that the wrapped sum 0 cannot be mistaken for the same block. */
  predicate Inv(c: Coder) {
    0 < c.range && c.low + c.range <= WORD && (c.low + c.range == WORD ==> WORD - TOP <= c.low)
  }

  predicate Ready(c: Coder) {
    Inv(c) && BOTTOM <= c.range
  }

  /** (low ^ (low + range)) < TOP in 32-bit arithmetic: the two ends have the same top byte. */
  predicate SameTop(c: Coder) {
    c.low / TOP == (c.low + c.range) % WORD / TOP
  }

  predicate Settled(c: Coder) {
    !SameTop(c) && BOTTOM <= c.range
  }

  lemma SlotFits(range: nat, e: Slot)
    requires Codable(e) && BOTTOM <= range
    ensures 0 < range / e.total
    ensures 0 < e.count * (range / e.total)
    ensures e.under * (range / e.total) + e.count * (range / e.total) <= range
  {
    var r := range / e.total;
    assert e.total * r <= range < e.total * r + e.total;
    assert 0 < r;
    assert (e.under + e.count) * r <= e.total * r;
  }

  function Narrow(c: Coder, e: Slot): (d: Coder)
    requires Ready(c) && Codable(e)
    ensures Inv(d) && c.low <= d.low && d.low + d.range <= c.low + c.range
  {
    SlotFits(c.range, e);
    var r := c.range / e.total;
    var skip, width := e.under * r, e.count * r;
    assert 0 <= skip;
    Coder(c.low + skip, width)
  }

  /** An interval that is too small and crosses a block boundary is left with what lies before the boundary. */
  lemma CutAtBlock(c: Coder)
    requires Inv(c) && !SameTop(c) && c.range < BOTTOM
    ensures (WORD - c.low) % BOTTOM == TOP - c.low % TOP <= c.range
  {
    var h, m := c.low / TOP, c.low % TOP;
    assert TOP - m <= c.range;
    assert WORD - c.low == (255 - h) * 0x100 * BOTTOM + (TOP - m);
  }

  /** When the ends differ in their top byte but the range is too small, the interval is cut
      at the block boundary it crosses; it never becomes empty. */
  function Squeeze(c: Coder): (d: Coder)
    requires Inv(c) && !Settled(c)
    ensures d.low == c.low && 0 < d.range <= c.range
    ensures c.low % TOP + d.range <= TOP
    ensures c.low % TOP + d.range == TOP ==> d.range < BOTTOM
  {
    if SameTop(c) then c
    else
      CutAtBlock(c);
      Coder(c.low, (WORD - c.low) % BOTTOM)
  }

  function Shift(c: Coder): (d: Coder) {
    Coder(c.low * 0x100 % WORD, c.range * 0x100 % WORD)
  }

  lemma ShiftKeepsInv(c: Coder)
    requires Inv(c) && !Settled(c)
    ensures var q := Squeeze(c); var d := Shift(q);
      && Inv(d)
      && d.low == q.low % TOP * 0x100
      && d.range == q.range * 0x100
      && SettleRank(d) < SettleRank(c)
  {
    var q := Squeeze(c);
    ShiftedLow(q.low);
    assert Shift(q).range == q.range * 0x100;
    if c.low + c.range == WORD {
      LastBlock(c);
    }
  }

  /** An interval that ends at 2^32 is not cut, and still ends there after the shift. */
  lemma LastBlock(c: Coder)
    requires Inv(c) && !Settled(c) && c.low + c.range == WORD
    ensures Squeeze(c) == c && c.low % TOP + c.range == TOP
  {
  }

  /** Bounds the number of rounds of the settling loop: each round multiplies the range by 256,
      except the one that first cuts the interval, after which it stays at the end of its block. */
  function SettleRank(c: Coder): nat {
    if c.low + c.range == WORD then WORD - c.range else 2 * WORD - c.range
  }

  /** The loop of ENET_RANGE_CODER_ENCODE: the bytes it emits and the coder it leaves. */
  function Settle(c: Coder): (r: (seq<byte>, Coder))
    requires Inv(c)
    ensures Ready(r.1)
    decreases SettleRank(c)
  {
    if Settled(c) then ([], c)
    else
      ShiftKeepsInv(c);
      var q := Squeeze(c);
      var rest := Settle(Shift(q));
      ([q.low / TOP] + rest.0, rest.1)
  }

  /** The number of bytes a flush of this low emits. */
  function FlushRank(low: uint32): nat {
    if low == 0 then 0
    else if low % TOP == 0 then 1
    else if low % BOTTOM == 0 then 2
    else if low % 0x100 == 0 then 3
    else 4
  }

  lemma ShiftedLow(low: uint32)
    ensures low * 0x100 % WORD == low % TOP * 0x100
  {
    assert low * 0x100 == low / TOP * WORD + low % TOP * 0x100;
  }

  lemma BytesOf(a: byte, b: byte, c: byte, d: byte)
    ensures var x := a * TOP + b * BOTTOM + c * 0x100 + d;
      x % TOP == b * BOTTOM + c * 0x100 + d && x % BOTTOM == c * 0x100 + d && x % 0x100 == d
  {
  }

  lemma FlushRankDrops(low: uint32)
    requires low != 0
    ensures FlushRank(low * 0x100 % WORD) < FlushRank(low)
  {
    ShiftedLow(low);
    var q, d := low / 0x100, low % 0x100;
    var p, c := q / 0x100, q % 0x100;
    var a, b := p / 0x100, p % 0x100;
    BytesOf(a, b, c, d);
    BytesOf(b, c, d, 0);
  }

  function Flush(low: uint32): (bs: seq<byte>)
    decreases FlushRank(low)
  {
    if low == 0 then []
    else
      FlushRankDrops(low);
      [low / TOP] + Flush(low * 0x100 % WORD)
  }

  /** Everything the encoder emits from state c on while coding the slots es, flush included. */
  function Stream(c: Coder, es: seq<Slot>): (bs: seq<byte>)
    requires Ready(c) && forall e <- es :: Codable(e)
    decreases |es|
  {
    if es == [] then Flush(c.low)
    else
      var step := Settle(Narrow(c, es[0]));
      step.0 + Stream(step.1, es[1..])
  }

  /** The coder after the slots es. */
  function CoderAfter(c: Coder, es: seq<Slot>): (d: Coder)
    requires Ready(c) && forall e <- es :: Codable(e)
    ensures Ready(d)
    decreases |es|
  {
    if es == [] then c else CoderAfter(Settle(Narrow(c, es[0])).1, es[1..])
  }

  lemma CoderAfterCons(c: Coder, e: Slot, es: seq<Slot>)
    requires Ready(c) && Codable(e) && forall x <- es :: Codable(x)
    ensures CoderAfter(c, [e] + es) == CoderAfter(Settle(Narrow(c, e)).1, es)
  {
    assert ([e] + es)[1..] == es;
  }

  /** The bytes that coding the slots es emits. */
  function Emitted(c: Coder, es: seq<Slot>): (bs: seq<byte>)
    requires Ready(c) && forall e <- es :: Codable(e)
    decreases |es|
  {
    if es == [] then []
    else
      var step := Settle(Narrow(c, es[0]));
      step.0 + Emitted(step.1, es[1..])
  }

  lemma OneSlot(c: Coder, e: Slot)
    requires Ready(c) && Codable(e)
    ensures Emitted(c, [e]) == Settle(Narrow(c, e)).0 && CoderAfter(c, [e]) == Settle(Narrow(c, e)).1
  {
    hide Narrow, Settle;
    assert [e][1..] == [];
  }

  lemma {:induction false} CodingSplits(c: Coder, es: seq<Slot>, fs: seq<Slot>)
    requires Ready(c) && (forall e <- es :: Codable(e)) && (forall e <- fs :: Codable(e))
    ensures Stream(c, es + fs) == Emitted(c, es) + Stream(CoderAfter(c, es), fs)
    ensures Emitted(c, es + fs) == Emitted(c, es) + Emitted(CoderAfter(c, es), fs)
    ensures CoderAfter(c, es + fs) == CoderAfter(CoderAfter(c, es), fs)
    decreases |es|
  {
    hide Narrow, Settle, Ready, Codable, Flush;
    if es == [] {
      assert es + fs == fs;
    } else {
      var step := Settle(Narrow(c, es[0]));
      assert (es + fs)[1..] == es[1..] + fs;
      CodingSplits(step.1, es[1..], fs);
    }
  }

  // ---- the decoder

  /** Interval as in the encoder, the four bytes under the reading head, and the unread input. */
  datatype Decoder = Decoder(low: uint32, range: uint32, code: uint32, rest: seq<byte>) {
    function Interval(): Coder { Coder(low, range) }
  }

  function At(bs: seq<byte>, i: nat): (b: byte) {
    if i < |bs| then bs[i] else 0
  }

  /** The first four bytes of a stream, as a big-endian word, padded with zeros. */
  function Window(bs: seq<byte>): (w: uint32) {
    At(bs, 0) * TOP + At(bs, 1) * BOTTOM + At(bs, 2) * 0x100 + At(bs, 3)
  }

  function Seed(input: seq<byte>): (d: Decoder) {
    Decoder(START.low, START.range, Window(input), Drop(input, 4))
  }

  /** ENET_RANGE_CODER_READ: the 32-bit quotient. */
  function Read(d: Decoder, total: nat): (q: uint32)
    requires 0 < total <= BOTTOM <= d.range
  {
    SlotFits(d.range, Slot(0, total, total));
    var n := (d.code - d.low) % WORD;
    MulMonotone(1, d.range / total, n + 1);
    QuotientBetween(n, d.range / total, 0, n + 1);
    (d.code - d.low) % WORD / (d.range / total)
  }

  function NextCode(code: uint32, rest: seq<byte>): (w: uint32) {
    code * 0x100 % WORD + At(rest, 0)
  }

  /** The settling loop of ENET_RANGE_CODER_DECODE. */
  function DecoderSettle(d: Decoder): (r: Decoder)
    requires Inv(d.Interval())
    ensures r.Interval() == Settle(d.Interval()).1
    decreases SettleRank(d.Interval())
  {
    if Settled(d.Interval()) then d
    else
      ShiftKeepsInv(d.Interval());
      var s := Shift(Squeeze(d.Interval()));
      DecoderSettle(Decoder(s.low, s.range, NextCode(d.code, d.rest), Drop(d.rest, 1)))
  }

  function Advance(d: Decoder, e: Slot): (r: Decoder)
    requires Ready(d.Interval()) && Codable(e)
    ensures Ready(r.Interval())
  {
    var c := Narrow(d.Interval(), e);
    DecoderSettle(Decoder(c.low, c.range, d.code, d.rest))
  }

  // ---- encoder and decoder in step

  /** The decoder stands where the encoder stood when only bs was still to come. */
  ghost predicate Synced(d: Decoder, c: Coder, bs: seq<byte>) {
    d == Decoder(c.low, c.range, Window(bs), Drop(bs, 4))
  }

  lemma SyncedInterval(d: Decoder, c: Coder, bs: seq<byte>)
    requires Synced(d, c, bs)
    ensures d.Interval() == c
  {
  }

  lemma SyncedAt(c: Coder, bs: seq<byte>)
    ensures Synced(Decoder(c.low, c.range, Window(bs), Drop(bs, 4)), c, bs)
  {
  }

  lemma WindowOfCons(b: byte, bs: seq<byte>)
    ensures Window([b] + bs) == b * TOP + Window(bs) / 0x100
    ensures NextCode(Window([b] + bs), Drop([b] + bs, 4)) == Window(bs)
    ensures Drop(Drop([b] + bs, 4), 1) == Drop(bs, 4)
  {
    var s := [b] + bs;
    assert At(s, 1) == At(bs, 0) && At(s, 2) == At(bs, 1) && At(s, 3) == At(bs, 2);
    assert At(Drop(s, 4), 0) == At(bs, 3);
  }

  lemma {:induction false} WindowOfFlush(low: uint32)
    ensures Window(Flush(low)) == low && |Flush(low)| <= FlushRank(low) <= 4
    decreases FlushRank(low)
  {
    if low != 0 {
      var next := low * 0x100 % WORD;
      FlushRankDrops(low);
      ShiftedLow(low);
      WindowOfFlush(next);
      WindowOfCons(low / TOP, Flush(next));
      assert next == low % TOP * 0x100;
    }
  }

  /** What a settling interval emits cannot leave it: if the stream that follows lies in the
      settled interval, the whole stream lies in the interval before. */
  lemma {:induction false} SettleEncloses(c: Coder, bs: seq<byte>)
    requires Inv(c)
    requires var d := Settle(c).1; d.low <= Window(bs) < d.low + d.range
    ensures c.low <= Window(Settle(c).0 + bs) < c.low + c.range
    decreases SettleRank(c)
  {
    if Settled(c) {
      assert Settle(c).0 + bs == bs;
    } else {
      ShiftKeepsInv(c);
      var q := Squeeze(c);
      var s := Shift(q);
      SettleEncloses(s, bs);
      var tail := Settle(s).0 + bs;
      assert Settle(c).0 + bs == [q.low / TOP] + tail;
      WindowOfCons(q.low / TOP, tail);
      assert q.low == q.low / TOP * TOP + q.low % TOP;
    }
  }

  /** The whole emitted stream lies inside every interval the encoder ever held. */
  lemma {:induction false} StreamInInterval(c: Coder, es: seq<Slot>)
    requires Ready(c) && forall e <- es :: Codable(e)
    ensures c.low <= Window(Stream(c, es)) < c.low + c.range
    decreases |es|
  {
    if es == [] {
      WindowOfFlush(c.low);
    } else {
      var n := Narrow(c, es[0]);
      var step := Settle(n);
      StreamInInterval(step.1, es[1..]);
      SettleEncloses(n, Stream(step.1, es[1..]));
    }
  }

  lemma {:induction false} SettleInStep(d: Decoder, c: Coder, bs: seq<byte>)
    requires Inv(c) && Synced(d, c, Settle(c).0 + bs)
    ensures Synced(DecoderSettle(d), Settle(c).1, bs)
    decreases SettleRank(c)
  {
    if Settled(c) {
      assert Settle(c).0 + bs == bs;
    } else {
      ShiftKeepsInv(c);
      var q := Squeeze(c);
      var s := Shift(q);
      var tail := Settle(s).0 + bs;
      assert Settle(c).0 + bs == [q.low / TOP] + tail;
      WindowOfCons(q.low / TOP, tail);
      SettleInStep(Decoder(s.low, s.range, NextCode(d.code, d.rest), Drop(d.rest, 1)), s, bs);
    }
  }

  /** Reading back one slot: the quotient the decoder computes lies in the slot that was encoded,
      and advancing over that slot keeps it in step with the encoder. */
  lemma DecodeInverts(d: Decoder, c: Coder, e: Slot, es: seq<Slot>)
    requires Ready(c) && Codable(e) && forall x <- es :: Codable(x)
    requires Synced(d, c, Stream(c, [e] + es))
    ensures e.under <= Read(d, e.total) < e.under + e.count
    ensures Synced(Advance(d, e), Settle(Narrow(c, e)).1, Stream(Settle(Narrow(c, e)).1, es))
  {
    var n := Narrow(c, e);
    var step := Settle(n);
    var tail := Stream(step.1, es);
    assert ([e] + es)[1..] == es;
    assert Stream(c, [e] + es) == step.0 + tail;
    StreamInInterval(step.1, es);
    SettleEncloses(n, tail);
    SettleInStep(Decoder(n.low, n.range, d.code, d.rest), n, tail);
    NarrowHolds(d.code, c, e);
  }

  lemma NarrowHolds(code: uint32, c: Coder, e: Slot)
    requires Ready(c) && Codable(e)
    requires var n := Narrow(c, e); n.low <= code < n.low + n.range
    ensures e.under <= Read(Decoder(c.low, c.range, code, []), e.total) < e.under + e.count
  {
    QuotientInSlot(code - c.low, c.range, e);
  }

  lemma QuotientInSlot(offset: nat, range: nat, e: Slot)
    requires Codable(e) && BOTTOM <= range < WORD && offset < range
    requires e.under * (range / e.total) <= offset < e.under * (range / e.total) + e.count * (range / e.total)
    ensures 0 < range / e.total
    ensures e.under <= offset / (range / e.total) < e.under + e.count
  {
    SlotFits(range, e);
    var r := range / e.total;
    assert (e.under + e.count) * r == e.under * r + e.count * r;
    QuotientBetween(offset, r, e.under, e.under + e.count);
  }

  /** The decoder has used up its input and its code is the low end of the interval. */
  ghost predicate AtEnd(d: Decoder) {
    d.code == d.low && d.rest == []
  }

  /** The end of the stream is implicit: once the encoder has flushed, every table reads as 0 ... */
  lemma FlushReadsAsEnd(d: Decoder, c: Coder)
    requires Ready(c) && Synced(d, c, Stream(c, []))
    ensures AtEnd(d)
  {
    WindowOfFlush(c.low);
  }

  /** ... and taking the bottom slot of any table leaves it so. */
  lemma EndStays(d: Decoder, e: Slot)
    requires Ready(d.Interval()) && Codable(e) && e.under == 0 && AtEnd(d)
    ensures Read(d, e.total) == 0 && AtEnd(Advance(d, e))
  {
    var c := Narrow(d.Interval(), e);
    SlotFits(d.range, e);
    QuotientBetween(0, d.range / e.total, 0, 1);
    SettleAtEnd(Decoder(c.low, c.range, d.code, d.rest));
  }

  lemma {:induction false} SettleAtEnd(d: Decoder)
    requires Inv(d.Interval()) && AtEnd(d)
    ensures AtEnd(DecoderSettle(d))
    decreases SettleRank(d.Interval())
  {
    if !Settled(d.Interval()) {
      ShiftKeepsInv(d.Interval());
      var s := Shift(Squeeze(d.Interval()));
      SettleAtEnd(Decoder(s.low, s.range, NextCode(d.code, d.rest), Drop(d.rest, 1)));
    }
  }
}
