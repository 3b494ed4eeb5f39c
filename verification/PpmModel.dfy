/** What the compressor and the decompressor of compress.c compute, over an adaptive order-2
    model given as a map from histories to frequency tables: no symbol array, no trees, no indices. */
module PpmModel {
  import opened Words
  import opened Frequencies
  import opened CarrylessCoder

  const SYMBOL_DELTA := 3
  const SYMBOL_MINIMUM := 1
  const ESCAPE_MINIMUM := 1
  const ORDER := 2
  const SUB_SYMBOL_DELTA := 2
  const SUB_ESCAPE_DELTA := 5
  const MAX_SYMBOLS := 4096
  const MAX_TOTAL := BOTTOM - 0x100

  /** The bytes before the one being coded; [] is the root context. */
  type History = seq<byte>

  datatype Context = Context(escapes: nat, freq: Table)

  function Fresh(): Context { Context(0, Zeros()) }

  function Minimum(h: History): nat { if h == [] then SYMBOL_MINIMUM else 0 }

  function Delta(h: History): nat { if h == [] then SYMBOL_DELTA else SUB_SYMBOL_DELTA }

  function Total(c: Context, minimum: nat): nat {
    c.escapes + 256 * minimum + Mass(c.freq)
  }

  /** A context has something to decode only if it was used before. */
  predicate Usable(c: Context) {
    0 < c.escapes < Total(c, 0)
  }

  /** The model between two bytes. */
  datatype Model = Model(contexts: map<History, Context>, history: History, nextSymbol: nat)

  function Empty(): Model { Model(map[[] := Context(ESCAPE_MINIMUM, Zeros())], [], 1) }

  function ContextAt(m: Model, h: History): Context {
    if h in m.contexts then m.contexts[h] else Fresh()
  }

  // ---- learning a byte

  function Rescale(c: Context): Context {
    Context(c.escapes - c.escapes / 2, Halve(c.freq))
  }

  function AddSymbol(h: History, c: Context, v: byte): Context {
    Context(if h != [] && c.freq[v] == 0 then c.escapes + SUB_ESCAPE_DELTA else c.escapes,
            c.freq[v := c.freq[v] + Delta(h)])
  }

  /** The count beyond which a table is rescaled, so that a byte-wide counter never wraps. */
  function CountLimit(h: History): int {
    0xFF - 2 * Delta(h) + Minimum(h)
  }

  function Bump(h: History, c: Context, v: byte): Context {
    var d := AddSymbol(h, c, v);
    if Overdue(h, c.freq[v], d) then Rescale(d) else d
  }

  /** count is the symbol's count before it was added. */
  predicate Overdue(h: History, count: nat, d: Context) {
    Minimum(h) + count > CountLimit(h) || Total(d, Minimum(h)) > MAX_TOTAL
  }

  function Learn(m: Model, h: History, v: byte): Model {
    var c := ContextAt(m, h);
    m.(contexts := m.contexts[h := Bump(h, c, v)],
       nextSymbol := if c.freq[v] == 0 then m.nextSymbol + 1 else m.nextSymbol)
  }

  /** The encoder learns v in every context from h down to the first that knows v already. */
  function LearnDown(m: Model, h: History, v: byte): Model
    decreases |h|
  {
    var n := Learn(m, h, v);
    if Knows(h, ContextAt(m, h), v) then n else LearnDown(n, h[1..], v)
  }

  lemma LearnDownStep(m: Model, h: History, v: byte)
    ensures LearnDown(m, h, v)
         == if Knows(h, ContextAt(m, h), v) then Learn(m, h, v) else LearnDown(Learn(m, h, v), h[1..], v)
  {
    hide Bump;
  }

  /** The decoder has found v in the context stop and then learns it in the contexts above. */
  function LearnAbove(m: Model, h: History, stop: History, v: byte): Model
    decreases |h|
  {
    if |h| <= |stop| then m else LearnAbove(Learn(m, h, v), h[1..], stop, v)
  }

  lemma LearnAboveStep(m: Model, h: History, stop: History, v: byte)
    ensures LearnAbove(m, h, stop, v)
         == if |h| <= |stop| then m else LearnAbove(Learn(m, h, v), h[1..], stop, v)
  {
    hide Bump;
  }

  /** Moves the history on, and starts over when the symbols are nearly used up. */
  function NextByte(m: Model, v: byte): Model {
    if m.nextSymbol >= MAX_SYMBOLS - ORDER then Empty()
    else if |m.history| >= ORDER then m.(history := m.history[1..] + [v])
    else m.(history := m.history + [v])
  }

  // ---- compression

  function SymbolSlot(h: History, c: Context, v: byte): Slot {
    Slot(c.escapes + Below(c.freq, Minimum(h), v), Minimum(h) + c.freq[v], Total(c, Minimum(h)))
  }

  function EscapeSlot(h: History, c: Context): Slot {
    Slot(0, c.escapes, Total(c, Minimum(h)))
  }

  predicate Knows(h: History, c: Context, v: byte) {
    0 < Minimum(h) + c.freq[v]
  }

  /** What coding v costs in one context: its slot, or the escape slot, or nothing. */
  function OwnSlots(h: History, c: Context, v: byte): seq<Slot> {
    if Knows(h, c, v) then [SymbolSlot(h, c, v)] else if Usable(c) then [EscapeSlot(h, c)] else []
  }

  /** The slots that code v when h is the longest context. */
  function Slots(m: Model, h: History, v: byte): seq<Slot>
    decreases |h|
  {
    var c := ContextAt(m, h);
    OwnSlots(h, c, v) + if Knows(h, c, v) then [] else Slots(m, h[1..], v)
  }

  function AfterByte(m: Model, v: byte): Model {
    NextByte(LearnDown(m, m.history, v), v)
  }

  function AllSlots(m: Model, input: seq<byte>): seq<Slot>
    decreases |input|
  {
    if input == [] then [] else Slots(m, m.history, input[0]) + AllSlots(AfterByte(m, input[0]), input[1..])
  }

  // ---- decompression

  /** What the decoder reads in one context. */
  datatype Reading =
    | Skip                                     // the context was never used
    | Escape(next: Decoder)
    | Symbol(value: byte, next: Decoder)
    | Beyond                                   // a code past the context's total

  function ReadIn(h: History, c: Context, d: Decoder): (r: Reading)
    requires ContextOk(h, c) && Ready(d.Interval())
    ensures r.Escape? || r.Symbol? ==> Ready(r.next.Interval())
    ensures h == [] ==> !r.Skip?
  {
    if h != [] && !Usable(c) then Skip
    else
      EscapeCodable(h, c);
      var code := Read(d, Total(c, Minimum(h))) % 0x1_0000;
      if code < c.escapes then Escape(Advance(d, EscapeSlot(h, c)))
      else if code - c.escapes >= Below(c.freq, Minimum(h), 256) then Beyond
      else
        var v := Find(c.freq, Minimum(h), code - c.escapes, 256);
        SlotCodable(h, c, v);
        Symbol(v, Advance(d, SymbolSlot(h, c, v)))
  }

  datatype Search =
    | Found(context: History, value: byte, decoder: Decoder)
    | End        // the root was escaped: end of the stream
    | Reject     // a code beyond every symbol of a subcontext: decompress returns 0
    | Malformed  // a code beyond the root's total: the symbol it yields is outside this model

  function SearchDown(m: Model, h: History, d: Decoder): (r: Search)
    requires TablesOk(m) && Ready(d.Interval())
    ensures r.Found? ==> Ready(r.decoder.Interval())
    decreases |h|
  {
    ValidContext(m, h);
    match ReadIn(h, ContextAt(m, h), d)
    case Skip => SearchDown(m, h[1..], d)
    case Escape(next) => if h == [] then End else SearchDown(m, h[1..], next)
    case Symbol(v, next) => Found(h, v, next)
    case Beyond => if h == [] then Malformed else Reject
  }

  lemma SearchStep(m: Model, h: History, d: Decoder)
    requires TablesOk(m) && Ready(d.Interval())
    ensures ContextOk(h, ContextAt(m, h))
    ensures var r := ReadIn(h, ContextAt(m, h), d);
      && (r.Skip? ==> SearchDown(m, h, d) == SearchDown(m, h[1..], d))
      && (r.Escape? ==> SearchDown(m, h, d) == if h == [] then End else SearchDown(m, h[1..], r.next))
      && (r.Symbol? ==> SearchDown(m, h, d) == Found(h, r.value, r.next))
      && (r.Beyond? ==> SearchDown(m, h, d) == if h == [] then Malformed else Reject)
  {
    hide ReadIn, TablesOk;
    ValidContext(m, h);
  }

  datatype Outcome = Output(bytes: seq<byte>) | Rejected | OutsideModel

  function DecodeAll(m: Model, d: Decoder, limit: nat): Outcome
    requires Valid(m) && Ready(d.Interval())
    decreases limit
  {
    match SearchDown(m, m.history, d)
    case End => Output([])
    case Reject => Rejected
    case Malformed => OutsideModel
    case Found(h, v, d') =>
      if limit == 0 then Rejected
      else
        var n := DecoderAfterByte(m, h, v);
        match DecodeAll(n, d', limit - 1)
        case Output(bytes) => Output([v] + bytes)
        case other => other
  }

  /** The outcome when bs was output before. */
  function After(bs: seq<byte>, o: Outcome): Outcome {
    if o.Output? then Output(bs + o.bytes) else o
  }

  lemma AfterNothing(o: Outcome)
    ensures After([], o) == o
  {
  }

  lemma DecodeStep(m: Model, d: Decoder, limit: nat, bs: seq<byte>)
    requires Valid(m) && Ready(d.Interval())
    ensures var r := SearchDown(m, m.history, d);
      && (r.End? ==> After(bs, DecodeAll(m, d, limit)) == Output(bs))
      && (r.Reject? ==> After(bs, DecodeAll(m, d, limit)) == Rejected)
      && (r.Malformed? ==> After(bs, DecodeAll(m, d, limit)) == OutsideModel)
      && (r.Found? ==> Ready(r.decoder.Interval()))
      && (r.Found? && limit == 0 ==> After(bs, DecodeAll(m, d, limit)) == Rejected)
      && (r.Found? && limit > 0 ==>
        After(bs, DecodeAll(m, d, limit))
          == After(bs + [r.value], DecodeAll(DecoderAfterByte(m, r.context, r.value), r.decoder, limit - 1)))
  {
    hide SearchDown, DecoderAfterByte, TablesOk;
  }

  function DecoderAfterByte(m: Model, h: History, v: byte): (n: Model)
    requires Valid(m)
    ensures Valid(n)
  {
    LearnKeepsTables(m, h, v);
    LearnAboveKeepsTables(Learn(m, h, v), m.history, h, v);
    var n := LearnAbove(Learn(m, h, v), m.history, h, v);
    NextByteValid(n, v);
    NextByte(n, v)
  }

  lemma DecoderAfter(m: Model, h: History, v: byte)
    requires Valid(m)
    ensures DecoderAfterByte(m, h, v) == NextByte(LearnAbove(Learn(m, h, v), m.history, h, v), v)
  {
    hide Learn, LearnAbove, NextByte, TablesOk;
  }

  // ---- the model's invariant

  ghost predicate ContextOk(h: History, c: Context) {
    && Total(c, Minimum(h)) <= MAX_TOTAL
    && (forall v: byte :: c.freq[v] <= 0xFF - Delta(h))
    && if h == [] then c.escapes == ESCAPE_MINIMUM else c.escapes == 0 <==> Mass(c.freq) == 0
  }

  ghost predicate TablesOk(m: Model) {
    && [] in m.contexts
    && forall h <- m.contexts :: ContextOk(h, m.contexts[h])
  }

  ghost predicate Valid(m: Model) {
    TablesOk(m) && |m.history| <= ORDER && 1 <= m.nextSymbol < MAX_SYMBOLS - ORDER
  }

  lemma EmptyValid()
    ensures Valid(Empty())
  {
    assert forall v: byte :: Zeros()[v] == 0;
    SumZero(Zeros(), 0, |Zeros()|);
  }

  lemma NextByteValid(m: Model, v: byte)
    requires TablesOk(m) && |m.history| <= ORDER && 1 <= m.nextSymbol
    ensures Valid(NextByte(m, v))
  {
    if m.nextSymbol >= MAX_SYMBOLS - ORDER {
      EmptyValid();
    }
  }

  lemma ValidContext(m: Model, h: History)
    requires TablesOk(m)
    ensures ContextOk(h, ContextAt(m, h))
  {
    if h !in m.contexts {
      assert forall v: byte :: Zeros()[v] == 0;
      SumZero(Zeros(), 0, |Zeros()|);
    }
  }

  lemma EscapeCodable(h: History, c: Context)
    requires ContextOk(h, c) && (h == [] || Usable(c))
    ensures Codable(EscapeSlot(h, c))
  {
  }

  lemma SlotCodable(h: History, c: Context, v: byte)
    requires ContextOk(h, c) && 0 < Minimum(h) + c.freq[v]
    ensures Codable(SymbolSlot(h, c, v))
    ensures SymbolSlot(h, c, v).under + SymbolSlot(h, c, v).count == c.escapes + Below(c.freq, Minimum(h), v + 1)
  {
    BelowNext(c.freq, Minimum(h), v);
    BelowMonotone(c.freq, Minimum(h), v + 1, |c.freq|);
  }

  /** Counters stay within 8 bits and totals within 16, even before the table is rescaled. */
  lemma AddSymbolFits(h: History, c: Context, v: byte)
    requires ContextOk(h, c)
    ensures var d := AddSymbol(h, c, v);
      && (forall u: byte :: d.freq[u] <= 0xFF)
      && Total(d, Minimum(h)) < BOTTOM
      && Mass(d.freq) == Mass(c.freq) + Delta(h)
      && if h == [] then d.escapes == ESCAPE_MINIMUM else 0 < d.escapes
  {
    var d := AddSymbol(h, c, v);
    forall u: byte ensures d.freq[u] <= 0xFF {
      assert u != v ==> d.freq[u] == c.freq[u];
    }
    AddSymbolTotal(h, c, v);
  }

  lemma AddSymbolTotal(h: History, c: Context, v: byte)
    requires ContextOk(h, c)
    ensures Mass(AddSymbol(h, c, v).freq) == Mass(c.freq) + Delta(h)
    ensures h != [] ==> 0 < AddSymbol(h, c, v).escapes
  {
    var f: Table := c.freq[v := c.freq[v] + Delta(h)];
    assert AddSymbol(h, c, v).freq == f;
    SumUpdate(c.freq, v, c.freq[v] + Delta(h), 0, |c.freq|);
    SumAtLeast(c.freq, v, 0, |c.freq|);
  }

  lemma BumpKeepsOk(h: History, c: Context, v: byte)
    requires ContextOk(h, c)
    ensures ContextOk(h, Bump(h, c, v))
  {
    AddSymbolFits(h, c, v);
    var d := AddSymbol(h, c, v);
    if !Overdue(h, c.freq[v], d) {
      forall u: byte ensures d.freq[u] <= 0xFF - Delta(h) {
        assert u != v ==> d.freq[u] == c.freq[u];
      }
    } else {
      RescaleKeepsOk(h, d);
    }
  }

  lemma RescaleKeepsOk(h: History, d: Context)
    requires forall u: byte :: d.freq[u] <= 0xFF
    requires Total(d, Minimum(h)) < BOTTOM
    requires 0 < Mass(d.freq)
    requires if h == [] then d.escapes == ESCAPE_MINIMUM else 0 < d.escapes
    ensures ContextOk(h, Rescale(d))
  {
    HalveSum(d.freq, 0, |d.freq|);
    var e := Rescale(d);
    assert forall u: byte :: e.freq[u] == d.freq[u] - d.freq[u] / 2;
  }

  lemma LearnKeepsTables(m: Model, h: History, v: byte)
    requires TablesOk(m)
    ensures TablesOk(Learn(m, h, v))
  {
    ValidContext(m, h);
    BumpKeepsOk(h, ContextAt(m, h), v);
  }

  lemma {:induction false} LearnAboveKeepsTables(m: Model, h: History, stop: History, v: byte)
    requires TablesOk(m)
    ensures TablesOk(LearnAbove(m, h, stop, v)) && LearnAbove(m, h, stop, v).history == m.history
    ensures m.nextSymbol <= LearnAbove(m, h, stop, v).nextSymbol
    decreases |h|
  {
    if |h| > |stop| {
      LearnKeepsTables(m, h, v);
      LearnAboveKeepsTables(Learn(m, h, v), h[1..], stop, v);
    }
  }
}
