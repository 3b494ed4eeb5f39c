/** Decompression undoes compression, for every input; the two models stay equal after every byte. */
module PpmRoundTrip {
  import opened Words
  import opened Frequencies
  import opened CarrylessCoder
  import opened Arithmetic
  import opened PpmModel

  function Compress(input: seq<byte>): (bytes: seq<byte>) {
    AllSlotsCodable(Empty(), input);
    Stream(START, AllSlots(Empty(), input))
  }

  function Decompress(bytes: seq<byte>, limit: nat): Outcome {
    EmptyValid();
    if bytes == [] then Output([]) else DecodeAll(Empty(), Seed(bytes), limit)
  }

  // ---- every slot can be coded

  lemma {:induction false} SlotsCodable(m: Model, h: History, v: byte)
    requires TablesOk(m)
    ensures forall e <- Slots(m, h, v) :: Codable(e)
    decreases |h|
  {
    var c := ContextAt(m, h);
    ValidContext(m, h);
    if Knows(h, c, v) {
      SlotCodable(h, c, v);
    } else {
      SlotsCodable(m, h[1..], v);
      if Usable(c) {
        EscapeCodable(h, c);
      }
    }
  }

  lemma {:induction false} LearnDownKeepsTables(m: Model, h: History, v: byte)
    requires TablesOk(m)
    ensures TablesOk(LearnDown(m, h, v)) && LearnDown(m, h, v).history == m.history
    ensures m.nextSymbol <= LearnDown(m, h, v).nextSymbol <= m.nextSymbol + |h| + 1
    decreases |h|
  {
    LearnKeepsTables(m, h, v);
    if !Knows(h, ContextAt(m, h), v) {
      LearnDownKeepsTables(Learn(m, h, v), h[1..], v);
    }
  }

  lemma AfterByteValid(m: Model, v: byte)
    requires Valid(m)
    ensures Valid(AfterByte(m, v))
  {
    LearnDownKeepsTables(m, m.history, v);
    NextByteValid(LearnDown(m, m.history, v), v);
  }

  lemma {:induction false} AllSlotsCodable(m: Model, input: seq<byte>)
    requires Valid(m) || m == Empty()
    ensures forall e <- AllSlots(m, input) :: Codable(e)
    decreases |input|
  {
    EmptyValid();
    if input != [] {
      SlotsCodable(m, m.history, input[0]);
      AfterByteValid(m, input[0]);
      AllSlotsCodable(AfterByte(m, input[0]), input[1..]);
    }
  }

  /** Coding v from the context h down is coding it in h and then, unless h knows it, further down. */
  lemma CodingWalk(m: Model, h: History, v: byte, c: Coder)
    requires TablesOk(m) && Ready(c)
    ensures forall e <- Slots(m, h, v) :: Codable(e)
    ensures forall e <- OwnSlots(h, ContextAt(m, h), v) :: Codable(e)
    ensures var own := OwnSlots(h, ContextAt(m, h), v);
      if Knows(h, ContextAt(m, h), v) then
        Emitted(c, Slots(m, h, v)) == Emitted(c, own) && CoderAfter(c, Slots(m, h, v)) == CoderAfter(c, own)
      else
        && h != [] && (forall e <- Slots(m, h[1..], v) :: Codable(e))
        && Emitted(c, Slots(m, h, v)) == Emitted(c, own) + Emitted(CoderAfter(c, own), Slots(m, h[1..], v))
        && CoderAfter(c, Slots(m, h, v)) == CoderAfter(CoderAfter(c, own), Slots(m, h[1..], v))
  {
    hide TablesOk, Emitted, CoderAfter, OwnSlots;
    SlotsCodable(m, h, v);
    var own := OwnSlots(h, ContextAt(m, h), v);
    if Knows(h, ContextAt(m, h), v) {
      assert Slots(m, h, v) == own + [] == own;
    } else {
      var rest := Slots(m, h[1..], v);
      assert Slots(m, h, v) == own + rest;
      forall e | e in own ensures Codable(e) {
        assert e in own + rest;
      }
      SlotsCodable(m, h[1..], v);
      CodingSplits(c, own, rest);
    }
  }

  /** The stream of an input is what its first byte emits and then the stream of the others. */
  lemma CompressStep(m: Model, c: Coder, input: seq<byte>)
    requires PpmModel.Valid(m) && Ready(c) && input != []
    requires forall e <- AllSlots(m, input) :: Codable(e)
    ensures var es, n := Slots(m, m.history, input[0]), AfterByte(m, input[0]);
      && (forall e <- es :: Codable(e)) && (forall e <- AllSlots(n, input[1..]) :: Codable(e))
      && Stream(c, AllSlots(m, input)) == Emitted(c, es) + Stream(CoderAfter(c, es), AllSlots(n, input[1..]))
  {
    hide Slots, Stream, Emitted, CoderAfter, AfterByte, TablesOk;
    SlotsCodable(m, m.history, input[0]);
    AfterByteValid(m, input[0]);
    AllSlotsCodable(AfterByte(m, input[0]), input[1..]);
    CodingSplits(c, Slots(m, m.history, input[0]), AllSlots(AfterByte(m, input[0]), input[1..]));
  }

  lemma StreamAtEnd(m: Model, c: Coder)
    requires Ready(c)
    ensures Stream(c, AllSlots(m, [])) == Flush(c.low)
  {
  }

  /** What the decoder reads in a context, by the cases of the source. */
  lemma ReadInCases(h: History, t: Context, d: Decoder)
    requires ContextOk(h, t) && Ready(d.Interval())
    ensures h != [] && !Usable(t) ==> ReadIn(h, t, d) == Skip
    ensures h == [] || Usable(t) ==>
      && Codable(EscapeSlot(h, t))
      && var code := Read(d, Total(t, Minimum(h))) % 0x1_0000;
         if code < t.escapes then ReadIn(h, t, d) == Escape(Advance(d, EscapeSlot(h, t)))
         else if code - t.escapes >= Below(t.freq, Minimum(h), 256) then ReadIn(h, t, d) == Beyond
         else
           var v := Find(t.freq, Minimum(h), code - t.escapes, 256);
           Codable(SymbolSlot(h, t, v)) && ReadIn(h, t, d) == Symbol(v, Advance(d, SymbolSlot(h, t, v)))
  {
    hide Advance, Read, Below, Find;
    if h == [] || Usable(t) {
      EscapeCodable(h, t);
      var code := Read(d, Total(t, Minimum(h))) % 0x1_0000;
      if t.escapes <= code && code - t.escapes < Below(t.freq, Minimum(h), 256) {
        var v := Find(t.freq, Minimum(h), code - t.escapes, 256);
        SlotHeld(h, t, code - t.escapes, v);
        SlotCodable(h, t, v);
      }
    }
  }

  lemma SlotHeld(h: History, t: Context, code: nat, v: byte)
    requires code < Below(t.freq, Minimum(h), 256) && v == Find(t.freq, Minimum(h), code, 256)
    ensures 0 < Minimum(h) + t.freq[v]
  {
    BelowNext(t.freq, Minimum(h), v);
  }

  // ---- the two ways of learning agree

  /** Learning in a longer context does not change what a shorter one codes. */
  lemma {:induction false} SlotsAfterLearn(m: Model, g: History, h: History, v: byte)
    requires |h| < |g|
    ensures Slots(Learn(m, g, v), h, v) == Slots(m, h, v)
    decreases |h|
  {
    hide Bump;
    assert ContextAt(Learn(m, g, v), h) == ContextAt(m, h);
    if !Knows(h, ContextAt(m, h), v) {
      SlotsAfterLearn(m, g, h[1..], v);
    }
  }

  /** The context in which the encoder stops: the longest that knows v, else the root. */
  function KnownAt(m: Model, h: History, v: byte): (k: History)
    ensures |k| <= |h| && k == h[|h| - |k|..]
    decreases |h|
  {
    if Knows(h, ContextAt(m, h), v) then h else KnownAt(m, h[1..], v)
  }

  lemma LearnCommutes(m: Model, g: History, h: History, v: byte)
    requires g != h
    ensures Learn(Learn(m, g, v), h, v) == Learn(Learn(m, h, v), g, v)
  {
    assert ContextAt(Learn(m, g, v), h) == ContextAt(m, h);
    assert ContextAt(Learn(m, h, v), g) == ContextAt(m, g);
    var x, y := Bump(g, ContextAt(m, g), v), Bump(h, ContextAt(m, h), v);
    assert m.contexts[g := x][h := y] == m.contexts[h := y][g := x];
  }

  lemma {:induction false} KnownAtAfterLearn(m: Model, g: History, h: History, v: byte)
    requires |h| < |g|
    ensures KnownAt(Learn(m, g, v), h, v) == KnownAt(m, h, v)
    decreases |h|
  {
    assert ContextAt(Learn(m, g, v), h) == ContextAt(m, h);
    if h != [] {
      KnownAtAfterLearn(m, g, h[1..], v);
    }
  }

  /** Learning from the longest context down is the same as learning the context that knows v
      first and the longer ones afterwards. */
  lemma {:induction false} LearningAgrees(m: Model, h: History, v: byte)
    ensures LearnDown(m, h, v) == LearnAbove(Learn(m, KnownAt(m, h, v), v), h, KnownAt(m, h, v), v)
    decreases |h|
  {
    var k := KnownAt(m, h, v);
    if k != h {
      var n := Learn(m, h, v);
      KnownAtAfterLearn(m, h, h[1..], v);
      LearningAgrees(n, h[1..], v);
      LearnCommutes(m, h, k, v);
    }
  }

  // ---- one byte

  lemma ReadInSymbol(h: History, t: Context, v: byte, d: Decoder, c: Coder, es: seq<Slot>)
    requires ContextOk(h, t) && Ready(c) && 0 < Minimum(h) + t.freq[v]
    requires Codable(SymbolSlot(h, t, v)) && forall e <- es :: Codable(e)
    requires Synced(d, c, Stream(c, [SymbolSlot(h, t, v)] + es))
    ensures var c' := CoderAfter(c, [SymbolSlot(h, t, v)]);
      ReadIn(h, t, d) == Symbol(v, Decoder(c'.low, c'.range, Window(Stream(c', es)), Drop(Stream(c', es), 4)))
  {
    hide Read, Advance, Stream, Window, Below, Find, Narrow, Settle;
    var e := SymbolSlot(h, t, v);
    DecodeInverts(d, c, e, es);
    SymbolFound(h, t, v, Read(d, e.total));
    SumAtLeast(t.freq, v, 0, 256);
    CoderAfterCons(c, e, []);
  }

  lemma ReadInEscape(h: History, t: Context, d: Decoder, c: Coder, es: seq<Slot>)
    requires ContextOk(h, t) && Ready(c) && (h == [] || Usable(t))
    requires Codable(EscapeSlot(h, t)) && forall e <- es :: Codable(e)
    requires Synced(d, c, Stream(c, [EscapeSlot(h, t)] + es))
    ensures var c' := CoderAfter(c, [EscapeSlot(h, t)]);
      ReadIn(h, t, d) == Escape(Decoder(c'.low, c'.range, Window(Stream(c', es)), Drop(Stream(c', es), 4)))
  {
    hide Read, Advance, Stream, Window, Narrow, Settle;
    var e := EscapeSlot(h, t);
    DecodeInverts(d, c, e, es);
    CoderAfterCons(c, e, []);
  }

  /** The decoder's descent takes the encoder's slots one by one and ends in the context where
      the encoder stopped, with the encoder's byte. */
  lemma {:induction false} SearchInverts(m: Model, h: History, v: byte, d: Decoder, c: Coder, es: seq<Slot>)
    requires TablesOk(m) && Ready(c)
    requires (forall e <- Slots(m, h, v) :: Codable(e)) && (forall e <- es :: Codable(e))
    requires Synced(d, c, Stream(c, Slots(m, h, v) + es))
    ensures var r := SearchDown(m, h, d);
      var c' := CoderAfter(c, Slots(m, h, v));
      r.Found? && r.context == KnownAt(m, h, v) && r.value == v && Synced(r.decoder, c', Stream(c', es))
    decreases |h|
  {
    hide ReadIn, SearchDown, Slots, KnownAt, CoderAfter, Synced, Stream, Window, SymbolSlot, EscapeSlot, Settle, Narrow, TablesOk,
      ContextOk, Codable, Ready;
    var t := ContextAt(m, h);
    SyncedInterval(d, c, Stream(c, Slots(m, h, v) + es));
    SearchStep(m, h, d);
    CostStep(m, h, v);
    if Knows(h, t, v) {
      SlotCodable(h, t, v);
      ReadInSymbol(h, t, v, d, c, es);
      SyncedAt(CoderAfter(c, [SymbolSlot(h, t, v)]), Stream(CoderAfter(c, [SymbolSlot(h, t, v)]), es));
    } else {
      SlotsCodable(m, h[1..], v);
      var rest := Slots(m, h[1..], v);
      if Usable(t) {
        var e := EscapeSlot(h, t);
        EscapeCodable(h, t);
        assert Slots(m, h, v) + es == [e] + (rest + es);
        ReadInEscape(h, t, d, c, rest + es);
        SyncedAt(CoderAfter(c, [e]), Stream(CoderAfter(c, [e]), rest + es));
        OneSlot(c, e);
        CoderAfterCons(c, e, rest);
        SearchInverts(m, h[1..], v, ReadIn(h, t, d).next, CoderAfter(c, [e]), es);
      } else {
        UnusedSkipped(h, t, d);
        assert Slots(m, h, v) == rest;
        SearchInverts(m, h[1..], v, d, c, es);
      }
    }
  }

  lemma CostStep(m: Model, h: History, v: byte)
    ensures var t := ContextAt(m, h);
      && Slots(m, h, v) == (if Knows(h, t, v) then [SymbolSlot(h, t, v)]
                            else (if Usable(t) then [EscapeSlot(h, t)] else []) + Slots(m, h[1..], v))
      && KnownAt(m, h, v) == (if Knows(h, t, v) then h else KnownAt(m, h[1..], v))
      && (!Knows(h, t, v) ==> h != [])
  {
    hide SymbolSlot, EscapeSlot;
  }

  lemma UnusedSkipped(h: History, t: Context, d: Decoder)
    requires ContextOk(h, t) && Ready(d.Interval()) && h != [] && !Usable(t)
    ensures ReadIn(h, t, d) == Skip
  {
  }

  lemma SymbolFound(h: History, t: Context, v: byte, code: nat)
    requires ContextOk(h, t) && 0 < Minimum(h) + t.freq[v]
    requires var e := SymbolSlot(h, t, v); e.under <= code < e.under + e.count
    ensures code < BOTTOM
    ensures t.escapes <= code && code - t.escapes < Below(t.freq, Minimum(h), 256)
    ensures Find(t.freq, Minimum(h), code - t.escapes, 256) == v
  {
    SlotCodable(h, t, v);
    BelowMonotone(t.freq, Minimum(h), v + 1, 256);
    SlotUnique(t.freq, Minimum(h), code - t.escapes, v, Find(t.freq, Minimum(h), code - t.escapes, 256));
  }

  lemma ReadInAtEnd(h: History, c: Context, d: Decoder)
    requires ContextOk(h, c) && Ready(d.Interval()) && AtEnd(d)
    ensures var r := ReadIn(h, c, d); (h != [] && r.Skip?) || (r.Escape? && AtEnd(r.next))
  {
    hide Advance, Read;
    if h == [] || Usable(c) {
      EscapeCodable(h, c);
      EndStays(d, EscapeSlot(h, c));
    }
  }

  /** At the end of the stream the decoder escapes every context and stops on the root's escape. */
  lemma {:induction false} SearchEnds(m: Model, h: History, d: Decoder)
    requires TablesOk(m) && Ready(d.Interval()) && AtEnd(d)
    ensures SearchDown(m, h, d) == End
    decreases |h|
  {
    hide ReadIn, AtEnd, TablesOk, ContextOk;
    ValidContext(m, h);
    ReadInAtEnd(h, ContextAt(m, h), d);
    if h != [] {
      var r := ReadIn(h, ContextAt(m, h), d);
      SearchEnds(m, h[1..], if r.Skip? then d else r.next);
    }
  }

  /** After every byte the decoder holds the encoder's model and stands where the encoder stood. */
  lemma InStep(m: Model, input: seq<byte>, d: Decoder, c: Coder)
    requires Valid(m) && Ready(c) && input != []
    requires (forall e <- AllSlots(m, input) :: Codable(e)) && Synced(d, c, Stream(c, AllSlots(m, input)))
    ensures (forall e <- Slots(m, m.history, input[0]) :: Codable(e))
    ensures Valid(AfterByte(m, input[0]))
    ensures forall e <- AllSlots(AfterByte(m, input[0]), input[1..]) :: Codable(e)
    ensures var r := SearchDown(m, m.history, d);
      var c' := CoderAfter(c, Slots(m, m.history, input[0]));
      && r.Found? && r.value == input[0]
      && DecoderAfterByte(m, r.context, r.value) == AfterByte(m, input[0])
      && Synced(r.decoder, c', Stream(c', AllSlots(AfterByte(m, input[0]), input[1..])))
  {
    var v := input[0];
    AfterByteValid(m, v);
    AllSlotsCodable(AfterByte(m, v), input[1..]);
    SlotsCodable(m, m.history, v);
    SearchInverts(m, m.history, v, d, c, AllSlots(AfterByte(m, v), input[1..]));
    LearningAgrees(m, m.history, v);
  }

  lemma {:induction false} DecodeAllInverts(m: Model, input: seq<byte>, d: Decoder, c: Coder, limit: nat)
    requires Valid(m) && Ready(c)
    requires (forall e <- AllSlots(m, input) :: Codable(e)) && Synced(d, c, Stream(c, AllSlots(m, input)))
    ensures DecodeAll(m, d, limit) == if |input| <= limit then Output(input) else Rejected
    decreases |input|
  {
    hide Stream, Window, Narrow, Settle, SearchDown, DecoderAfterByte, AfterByte, TablesOk;
    if input == [] {
      FlushReadsAsEnd(d, c);
      SearchEnds(m, m.history, d);
    } else {
      InStep(m, input, d, c);
      var n, c' := AfterByte(m, input[0]), CoderAfter(c, Slots(m, m.history, input[0]));
      if 0 < limit {
        DecodeAllInverts(n, input[1..], SearchDown(m, m.history, d).decoder, c', limit - 1);
        assert input == [input[0]] + input[1..];
      }
    }
  }

  /** The law of the compressor: every input comes back if there is room for it, and is rejected if there
      is not; only the empty one compresses to nothing. */
  lemma RoundTrip(input: seq<byte>, limit: nat)
    ensures Decompress(Compress(input), limit) == if |input| <= limit then Output(input) else Rejected
    ensures Compress(input) == [] <==> input == []
  {
    EmptyValid();
    AllSlotsCodable(Empty(), input);
    if input != [] {
      CompressedNotEmpty(input);
      DecodeAllInverts(Empty(), input, Seed(Compress(input)), START, limit);
    }
  }

  /** The first slot already lies above 0, and the stream stays in it. */
  lemma CompressedNotEmpty(input: seq<byte>)
    requires input != []
    ensures Compress(input) != []
  {
    hide Stream, AfterByte, TablesOk, Below, Narrow;
    EmptyValid();
    var m, v := Empty(), input[0];
    var t := ContextAt(m, []);
    var e := SymbolSlot([], t, v);
    var es := AllSlots(AfterByte(m, v), input[1..]);
    ValidContext(m, []);
    SlotCodable([], t, v);
    AfterByteValid(m, v);
    AllSlotsCodable(m, input);
    AllSlotsCodable(AfterByte(m, v), input[1..]);
    assert AllSlots(m, input) == [e] + es;
    StreamAboveFirst(START, e, es);
    assert Window([]) == 0;
  }

  lemma StreamAboveFirst(c: Coder, e: Slot, es: seq<Slot>)
    requires Ready(c) && Codable(e) && forall x <- es :: Codable(x)
    ensures Narrow(c, e).low <= Window(Stream(c, [e] + es))
    ensures 0 < e.under ==> c.low < Window(Stream(c, [e] + es))
  {
    SlotFits(c.range, e);
    if 0 < e.under {
      MulMonotone(1, e.under, c.range / e.total);
    }
    assert 0 < e.under ==> 0 < e.under * (c.range / e.total);
    assert ([e] + es)[1..] == es;
    var n := Narrow(c, e);
    var step := Settle(n);
    StreamInInterval(step.1, es);
    SettleEncloses(n, Stream(step.1, es));
  }

  /** Two different inputs never compress to the same bytes. */
  lemma CompressInjective(a: seq<byte>, b: seq<byte>)
    requires Compress(a) == Compress(b)
    ensures a == b
  {
    hide *;
    RoundTrip(a, |a| + |b|);
    RoundTrip(b, |a| + |b|);
  }
}
