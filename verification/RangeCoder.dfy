/** compress.c: the symbol array, updated in place by the compressor and the decompressor. */
module RangeCoder {
  import opened Words
  import opened Frequencies
  import opened CarrylessCoder
  import opened PpmModel
  import opened SymbolTrees
  import opened PpmLinks
  import opened CoderLoops
  import opened PpmRoundTrip

  /** ENetRangeCoder, together with the locals of enet_range_coder_compress and _decompress that
      their macros share: nextSymbol, predicted and order. */
  class RangeCoder {
    const symbols: array<Symbol>
    var nextSymbol: nat
    var predicted: nat
    var order: nat
    ghost var info: seq<Info>
    ghost var names: Names
    ghost var model: Model

    constructor ()
      ensures symbols.Length == MAX_SYMBOLS && fresh(symbols)
    {
      symbols := new Symbol[MAX_SYMBOLS];
      nextSymbol, predicted, order := 0, 0, 0;
      info, names, model := [], Names([], map[]), Empty();
    }

    ghost predicate TreesValid()
      reads this, symbols
    {
      symbols.Length == MAX_SYMBOLS && nextSymbol == |info| && Trees(symbols[..], info)
    }

    /** ENET_SYMBOL_CREATE */
    method CreateSymbol(value: byte, count: byte) returns (symbol: nat)
      requires nextSymbol < symbols.Length
      modifies this`nextSymbol, symbols
      ensures symbol == old(nextSymbol) && nextSymbol == symbol + 1
      ensures symbols[..] == old(symbols[..])[symbol := NewSymbol(value, count)]
    {
      symbol := nextSymbol;
      symbols[symbol] := NewSymbol(value, count);
      nextSymbol := nextSymbol + 1;
    }

    /** Creates the symbol for value at a vacant place found by a search. */
    method AttachSymbol(context: nat, node: nat, side: Side, value: byte, update: byte, ghost s0: seq<Symbol>, ghost lo: nat, ghost hi: nat)
        returns (symbol: nat)
      requires symbols.Length == MAX_SYMBOLS && nextSymbol == |info| < MAX_SYMBOLS && 0 < update
      requires Trees(s0, info) && Vacant(s0, info, context, node, side, lo, hi) && lo <= value < hi
      requires Walked(s0, symbols[..], info, context, value, |info|, update)
      modifies this`nextSymbol, this`info, symbols
      ensures TreesValid()
      ensures old(info)[context].freq[value] == 0
      ensures Counted(s0, symbols[..], old(info), info, context, value, update, symbol, 0)
    {
      hide Trees, Walked, Counted, CountNew;
      ghost var s := symbols[..];
      symbol := CreateSymbol(value, update);
      symbols[node] := Link(symbols[node], side, symbol - node);
      CountingNew(s0, s, symbols[..], info, context, value, node, side, lo, hi, update);
      NewIsCounted(s0, s, symbols[..], info, context, value, node, side, lo, hi, update);
      info := CountNew(info, context, value, lo, hi, update);
    }

    /** ENET_CONTEXT_ENCODE: counts value in the tree of context; under and count are its slot before that. */
    method ContextEncode(context: nat, value: byte, update: byte, minimum: nat)
        returns (symbol: nat, under: uint16, count: uint16)
      requires TreesValid() && context < nextSymbol < MAX_SYMBOLS && minimum <= 1 && 0 < update
      requires 256 * minimum + Mass(info[context].freq) + update < 0x1_0000
      requires info[context].freq[value] + update < 0x100
      modifies this`nextSymbol, this`info, symbols
      ensures TreesValid()
      ensures under == Below(old(info)[context].freq, minimum, value)
      ensures count == minimum + old(info)[context].freq[value]
      ensures Counted(old(symbols[..]), symbols[..], old(info), info, context, value, update, symbol, 0)
    {
      hide Walked, Clear, Counted, Trees, WalkedUnder;
      ghost var s0, g, freq := symbols[..], info, info[context].freq;
      MassBounds(freq, value);
      under := value * minimum;
      count := minimum;
      PathRoot(s0, g, context, value);
      WalkBegins(s0, g, context, value, if s0[context].symbols != 0 then context + s0[context].symbols else |g|, update);
      if symbols[context].symbols == 0 {
        GapIsEmpty(s0, g, context, context, 0, 256);
        GapSum(freq, 0, value, 256);
        symbol := AttachSymbol(context, context, AsRoot, value, update, s0, 0, 256);
      } else {
        var node: nat := context + symbols[context].symbols;
        while true
          invariant info == g && nextSymbol == |g| && 1 <= node < |g| && Covers(g, context, value, node)
          invariant Walked(s0, symbols[..], g, context, value, node, update)
          invariant under == value * minimum + Sum(freq, 0, g[node].lo) && count == minimum
          decreases |g| - node
        {
          ghost var s := symbols[..];
          SlotAt(s0, g, context, node);
          WalkedAt(s0, s, g, context, value, node, update, node);
          UnderFits(s0, g, node);
          if value < symbols[node].value {
            symbols[node] := symbols[node].(under := symbols[node].under + update);
            PathLeft(s0, g, context, value, node);
            ghost var next := if s0[node].left != 0 then node + s0[node].left else |g|;
            assert next > node;
            WalkOn(s0, s, symbols[..], g, context, value, node, next, update);
            if symbols[node].left != 0 {
              node := node + symbols[node].left;
              continue;
            }
            GapIsEmpty(s0, g, context, node, g[node].lo, s0[node].value);
            GapSum(freq, g[node].lo, value, s0[node].value);
            symbol := AttachSymbol(context, node, AsLeft, value, update, s0, g[node].lo, s0[node].value);
          } else if value > symbols[node].value {
            under := under + symbols[node].under;
            PathRight(s0, g, context, value, node);
            ghost var next := if s0[node].right != 0 then node + s0[node].right else |g|;
            WalkOn(s0, s, symbols[..], g, context, value, node, next, update);
            if symbols[node].right != 0 {
              node := node + symbols[node].right;
              continue;
            }
            GapIsEmpty(s0, g, context, node, s0[node].value + 1, g[node].hi);
            GapSum(freq, s0[node].value + 1, value, g[node].hi);
            symbol := AttachSymbol(context, node, AsRight, value, update, s0, s0[node].value + 1, g[node].hi);
          } else {
            count := count + symbols[node].count;
            under := under + symbols[node].under - symbols[node].count;
            symbol := node;
            CountHere(context, node, update, s0);
          }
          break;
        }
      }
    }

    /** The search has reached the node of the value: the value is counted there. */
    method CountHere(context: nat, node: nat, update: byte, ghost s0: seq<Symbol>)
      requires symbols.Length == MAX_SYMBOLS && nextSymbol == |info| && context < |info|
      requires Trees(s0, info) && 1 <= node < |info| && info[node].own == context && 0 < update
      requires Mass(info[context].freq) + update < 0x1_0000 && info[context].freq[s0[node].value] + update < 0x100
      requires Walked(s0, symbols[..], info, context, s0[node].value, node, update)
      modifies this`info, symbols
      ensures TreesValid()
      ensures Counted(s0, symbols[..], old(info), info, context, s0[node].value, update, node, 0)
    {
      ghost var s, g, value := symbols[..], info, s0[node].value;
      SlotAt(s0, g, context, node);
      symbols[node] := symbols[node].(under := symbols[node].under + update);
      ghost var s' := symbols[..];
      symbols[node] := symbols[node].(count := symbols[node].count + update);
      HereCovers(s0, g, context, node);
      PathFound(s0, g, context, value, node);
      WalkOn(s0, s, s', g, context, value, node, |g|, update);
      CountingKnown(s0, s', symbols[..], g, context, value, node, update);
      info := CountKnown(info, context, value, update);
    }

    /** The code reached a vacant place of the root's tree: what the three create arguments of
        ENET_CONTEXT_ROOT_DECODE compute from the neighbouring node's slot. */
    method CreateFromCode(context: nat, node: nat, side: Side, code: uint16, after: uint16, before: uint16, update: byte,
                          minimum: nat, ghost s0: seq<Symbol>, ghost v: byte)
        returns (symbol: nat, value: byte, under: uint16)
      requires symbols.Length == MAX_SYMBOLS && nextSymbol == |info| < MAX_SYMBOLS && 0 < update && minimum == 1
      requires Trees(s0, info) && |info| <= |s0| && context <= node < |info| && InSlot(info[context].freq, 1, code, v)
      requires side == AsRoot ==> node == context && s0[node].symbols == 0
      requires side != AsRoot ==> 1 <= node && Covers(info, context, v, node) && symbols[node].value == s0[node].value
      requires side == AsLeft ==> v < s0[node].value && s0[node].left == 0 && after - before == Below(info[context].freq, 1, s0[node].value)
      requires side == AsRight ==> s0[node].value < v && s0[node].right == 0 && after == Below(info[context].freq, 1, s0[node].value + 1)
      requires Walked(s0, symbols[..], info, context, v, |info|, update)
      modifies this`nextSymbol, this`info, symbols
      ensures TreesValid()
      ensures value == v && under == Below(old(info)[context].freq, 1, v) && old(info)[context].freq[v] == 0
      ensures Counted(s0, symbols[..], old(info), info, context, v, update, symbol, 0)
    {
      hide Walked, Clear, Counted, Trees, Below, InSlot;
      ghost var freq := info[context].freq;
      ghost var lo: nat, hi: nat := 0, 256;
      if side == AsLeft {
        lo, hi := info[node].lo, s0[node].value;
      } else if side == AsRight {
        lo, hi := s0[node].value + 1, info[node].hi;
      }
      GapIsEmpty(s0, info, context, node, lo, hi);
      GapSlot(freq, lo, hi, code, v);
      BelowZero(freq, 1);
      match side {
        case AsRoot =>
          value := code / minimum;
          under := code - code % minimum;
        case AsRight =>
          value := symbols[node].value + 1 + (code - after) / minimum;
          under := code - (code - after) % minimum;
        case AsLeft =>
          value := symbols[node].value - 1 - (after - before - code - 1) / minimum;
          under := code - (after - before - code - 1) % minimum;
      }
      symbol := AttachSymbol(context, node, side, value, update, s0, lo, hi);
    }

    /** ENET_CONTEXT_DECODE: finds the value whose slot holds code and counts it. With minimum 1 a
        value that is not in the tree is created; with minimum 0 that is the failure return. */
    method ContextDecode(context: nat, code: uint16, update: byte, minimum: nat)
        returns (found: bool, symbol: nat, value: byte, under: uint16, count: uint16)
      requires TreesValid() && context < nextSymbol < MAX_SYMBOLS && minimum <= 1 && 0 < update
      requires 256 * minimum + Mass(info[context].freq) + update < 0x1_0000
      requires forall v: byte :: info[context].freq[v] + update < 0x100
      requires minimum == 1 ==> code < Below(info[context].freq, minimum, 256)
      modifies this`nextSymbol, this`info, symbols
      ensures found <==> code < Below(old(info)[context].freq, minimum, 256)
      ensures found ==> TreesValid()
      ensures found ==> value == Find(old(info)[context].freq, minimum, code, 256)
      ensures found ==> under == Below(old(info)[context].freq, minimum, value)
      ensures found ==> count == minimum + old(info)[context].freq[value]
      ensures found ==> Counted(old(symbols[..]), symbols[..], old(info), info, context, value, update, symbol, 0)
    {
      hide Walked, Clear, Counted, Trees, WalkedUnder, Find, InSlot, Below;
      ghost var s0, g, freq := symbols[..], info, info[context].freq;
      ghost var v := Target(freq, minimum, code);
      found, symbol, value, under, count := true, 0, 0, 0, minimum;
      PathRoot(s0, g, context, v);
      WalkBegins(s0, g, context, v, if s0[context].symbols != 0 then context + s0[context].symbols else |g|, update);
      if symbols[context].symbols == 0 {
        if minimum == 0 {
          NothingHere(s0, g, context, context, AsRoot, code, v);
          found := false;
          return;
        }
        symbol, value, under := CreateFromCode(context, context, AsRoot, code, 0, 0, update, minimum, s0, v);
      } else {
        var node: nat := context + symbols[context].symbols;
        while true
          invariant info == g && nextSymbol == |g| && 1 <= node < |g| && Covers(g, context, v, node)
          invariant Walked(s0, symbols[..], g, context, v, node, update)
          invariant g[node].lo <= 256 && under == Sum(freq, 0, g[node].lo) && count == minimum
          decreases |g| - node
        {
          ghost var s := symbols[..];
          SlotAt(s0, g, context, node);
          WalkedAt(s0, s, g, context, v, node, update, node);
          UnderFits(s0, g, node);
          CompareAt(s0, g, context, node, minimum, code, v);
          var after: uint16 := under + symbols[node].under + (symbols[node].value + 1) * minimum;
          var before: uint16 := symbols[node].count + minimum;
          if code >= after {
            under := under + symbols[node].under;
            PathRight(s0, g, context, v, node);
            ghost var next := if s0[node].right != 0 then node + s0[node].right else |g|;
            WalkOn(s0, s, symbols[..], g, context, v, node, next, update);
            if symbols[node].right != 0 {
              node := node + symbols[node].right;
              continue;
            }
            if minimum == 0 {
              NothingHere(s0, g, context, node, AsRight, code, v);
              found := false;
              return;
            }
            symbol, value, under := CreateFromCode(context, node, AsRight, code, after, before, update, minimum, s0, v);
          } else if code < after - before {
            symbols[node] := symbols[node].(under := symbols[node].under + update);
            PathLeft(s0, g, context, v, node);
            ghost var next := if s0[node].left != 0 then node + s0[node].left else |g|;
            WalkOn(s0, s, symbols[..], g, context, v, node, next, update);
            if symbols[node].left != 0 {
              node := node + symbols[node].left;
              continue;
            }
            if minimum == 0 {
              NothingHere(s0, g, context, node, AsLeft, code, v);
              found := false;
              return;
            }
            symbol, value, under := CreateFromCode(context, node, AsLeft, code, after, before, update, minimum, s0, v);
          } else {
            value := symbols[node].value;
            count := count + symbols[node].count;
            under := after - before;
            symbol := node;
            CountHere(context, node, update, s0);
          }
          break;
        }
      }
    }

    /** enet_symbol_rescale: halves the counts of a subtree, recomputes its sums and returns its total. */
    method SymbolRescale(symbol: nat, ghost context: nat, ghost base: seq<Symbol>) returns (total: uint16)
      requires symbols.Length == MAX_SYMBOLS && context < |info| <= |base| == MAX_SYMBOLS
      requires 1 <= symbol < |info| && info[symbol].own == context
      requires Trees(base, info) && SameShape(base, symbols[..], info, info) && Mass(info[context].freq) < 0x1_0000
      requires forall i :: Inside(info, context, info[symbol].lo, info[symbol].hi, i) ==> i < |base| && symbols[..][i] == base[i]
      modifies symbols
      ensures HalvedPart(old(symbols[..]), symbols[..], info, context, info[symbol].lo, info[symbol].hi, info[symbol].hi)
      ensures info[symbol].lo <= info[symbol].hi <= 256
      ensures total == Sum(Halve(info[context].freq), info[symbol].lo, info[symbol].hi)
      decreases |info| - symbol
    {
      hide Trees, HalvedPart, SameShape, Sum, Mass, Inside, Halve;
      ghost var s0, g, freq := symbols[..], info, Halve(info[context].freq);
      ghost var lo, hi := g[symbol].lo, g[symbol].hi;
      HalvedSum(base, g, context, symbol);
      HalvingBegins(s0, g, context, lo, hi);
      SumEmpty(freq, lo);
      var node := symbol;
      total := 0;
      while true
        invariant 1 <= node < |g| && g[node].own == context && symbol <= node && lo <= g[node].lo <= 256 && g[node].hi == hi
        invariant HalvedPart(s0, symbols[..], g, context, lo, g[node].lo, hi)
        invariant total == Sum(freq, lo, g[node].lo)
        decreases |g| - node
      {
        ghost var s := symbols[..];
        HalvedSum(base, g, context, node);
        Children(base, g, node);
        ghost var value: int := base[node].value;
        HalvedFits(g[context].freq, lo, value + 1);
        SumSplit(freq, lo, g[node].lo, value + 1);
        SumNext(freq, g[node].lo, value);
        symbols[node] := symbols[node].(count := symbols[node].count - symbols[node].count / 2);
        HalvingAhead(base, s0, s, symbols[..], g, context, lo, hi, node);
        symbols[node] := symbols[node].(under := symbols[node].count);
        ghost var s2 := symbols[..];
        HalvingAhead(base, s0, s, s2, g, context, lo, hi, node);
        ghost var s3 := s2;
        if symbols[node].left != 0 {
          var below := SymbolRescale(node + symbols[node].left, context, base);
          s3 := symbols[..];
          HalvedOutside(s2, s3, g, context, g[node].lo, value, node);
          symbols[node] := symbols[node].(under := symbols[node].under + below);
        }
        total := total + symbols[node].under;
        HalveTurn(base, s0, s, s2, s3, symbols[..], g, context, lo, hi, node);
        if symbols[node].right == 0 {
          SumSplit(freq, lo, value + 1, hi);
          HalvedAll(s0, symbols[..], g, context, lo, hi, node, base);
          break;
        }
        node := node + symbols[node].right;
      }
    }

    /** ENET_CONTEXT_RESCALE */
    method ContextRescale(context: nat, minimum: nat)
      requires TreesValid() && context < |info| && minimum <= 1 && Mass(info[context].freq) < 0x1_0000
      requires Mass(Halve(info[context].freq)) + symbols[context].escapes - symbols[context].escapes / 2 + 256 * minimum < 0x1_0000
      modifies this`info, symbols
      ensures TreesValid() && info == CountHalved(old(info), context)
      ensures forall i :: 0 <= i < symbols.Length ==> symbols[i].value == old(symbols[i].value) && symbols[i].parent == old(symbols[i].parent)
      ensures forall i :: 0 <= i < symbols.Length && i != context ==>
        symbols[i].escapes == old(symbols[i].escapes) && symbols[i].total == old(symbols[i].total)
      ensures symbols[context].escapes == old(symbols[context].escapes - symbols[context].escapes / 2)
      ensures symbols[context].total == Mass(info[context].freq) + symbols[context].escapes + 256 * minimum
    {
      hide Trees, HalvedPart, SameShape, Sum, Halve;
      ghost var s0 := symbols[..];
      HalvingAtRoot(s0, info, context);
      var total: uint16 := 0;
      if symbols[context].symbols != 0 {
        total := SymbolRescale(context + symbols[context].symbols, context, s0);
      }
      ghost var s1 := symbols[..];
      Halving(s0, s1, info, context);
      symbols[context] := symbols[context].(escapes := symbols[context].escapes - symbols[context].escapes / 2);
      symbols[context] := symbols[context].(total := total + symbols[context].escapes + 256 * minimum);
      info := CountHalved(info, context);
      ContextWritten(s1, symbols[..], info, context);
    }

    /** What follows the coding of a symbol in a context: its escapes and total, and the rescaling
        that keeps its counters within their words. count is the symbol's slot before it was counted. */
    method UpdateContext(context: nat, count: uint16, delta: nat, minimum: nat, ghost s0: seq<Symbol>, ghost g0: seq<Info>,
                         ghost h: History, ghost t: Context, ghost v: byte, ghost symbol: nat, ghost link: nat)
      requires TreesValid() && Counted(s0, symbols[..], g0, info, context, v, delta, symbol, link)
      requires context < |info| && context < |s0| && context < |g0|
      requires Holds(s0[context], g0[context], h, t) && ContextOk(h, t)
      requires delta == Delta(h) && minimum == Minimum(h) && count == minimum + t.freq[v]
      modifies this`info, symbols
      ensures TreesValid() && Learned(s0, symbols[..], g0, info, context, h, t, v, symbol, link)
    {
      ghost var s1, g1, d := symbols[..], info, AddSymbol(h, t, v);
      AddSymbolFits(h, t, v);
      if minimum == 0 && count == 0 {
        symbols[context] := symbols[context].(escapes := symbols[context].escapes + SUB_ESCAPE_DELTA,
                                              total := symbols[context].total + SUB_ESCAPE_DELTA);
      }
      symbols[context] := symbols[context].(total := symbols[context].total + delta);
      ContextWritten(s1, symbols[..], info, context);
      assert Holds(symbols[context], info[context], h, d);
      if count > 0xFF - 2 * delta + minimum || symbols[context].total > BOTTOM - 0x100 {
        RescaleKeepsOk(h, d);
        ContextRescale(context, minimum);
      }
      CountedThenLearned(s0, s1, symbols[..], g0, g1, info, context, h, t, v, symbol, link);
    }

    ghost predicate Represented(pending: nat)
      reads this, symbols
    {
      TreesValid() && Represents(symbols[..], info, names, model, pending)
    }

    /** Counts value in context and writes the parent of the entry visited before (link; 0 stands
        for the local predicted). */
    method Visit(context: nat, value: byte, delta: byte, minimum: nat, link: nat, ghost pending: nat)
        returns (symbol: nat, under: uint16, count: uint16)
      requires Represented(pending) && nextSymbol < MAX_SYMBOLS && context < |info| && |names.of[context]| <= ORDER
      requires minimum == Minimum(names.of[context]) && delta == Delta(names.of[context]) && link < |info|
      modifies this`nextSymbol, this`info, this`predicted, symbols
      ensures TreesValid() && Counted(old(symbols[..]), symbols[..], old(info), info, context, value, delta, symbol, link)
      ensures var t := ContextAt(model, names.of[context]);
        && under == Below(t.freq, minimum, value) && count == minimum + t.freq[value]
        && ContextOk(names.of[context], t)
        && Holds(old(symbols[..])[context], old(info)[context], names.of[context], t)
        && symbols[context].escapes == t.escapes && symbols[context].total == Total(t, minimum)
      ensures predicted == if link == 0 then symbol else old(predicted)
    {
      hide Trees, Counted, TablesOk, NamesOk, ParentsOk, Below;
      ghost var s0, g0 := symbols[..], info;
      ghost var t := ContextAt(model, names.of[context]);
      ValidContext(model, names.of[context]);
      assert Holds(symbols[context], info[context], names.of[context], t);
      symbol, under, count := ContextEncode(context, value, delta, minimum);
      ghost var s1 := symbols[..];
      CountedSizes(s0, s1, g0, info, context, value, delta, symbol, 0);
      if link == 0 {
        predicted := symbol;
      } else {
        symbols[link] := symbols[link].(parent := symbol);
      }
      ParentWritten(s0, s1, symbols[..], g0, info, context, value, delta, symbol, link);
      CountedSizes(s0, symbols[..], g0, info, context, value, delta, symbol, link);
    }

    /** UpdateContext, and what it makes of the model. */
    method FinishVisit(context: nat, count: uint16, delta: nat, minimum: nat, ghost s0: seq<Symbol>, ghost g0: seq<Info>,
                       ghost h: History, ghost t: Context, ghost v: byte, ghost symbol: nat, ghost link: nat, ghost pending: nat)
      requires TreesValid() && Counted(s0, symbols[..], g0, info, context, v, delta, symbol, link)
      requires context < |info| && context < |s0| && context < |g0|
      requires Holds(s0[context], g0[context], h, t) && ContextOk(h, t)
      requires delta == Delta(h) && minimum == Minimum(h) && count == minimum + t.freq[v]
      requires Trees(s0, g0) && Represents(s0, g0, names, model, pending) && context < |names.of|
      requires h == names.of[context] && |h| <= ORDER && t == ContextAt(model, h)
      requires LinkOk(names, h, v, link, pending)
      modifies this`info, this`names, this`model, symbols
      ensures Represented(PendingAfter(old(names), h, symbol))
      ensures LearnedIn(old(names), old(model), names, model, context, v, symbol)
    {
      hide Trees, Counted, Below, Learn, NamesAfter, Total, Holds, Learned, Represents, ContextOk, LearnedIn;
      Sizes(s0, g0, names, model, pending);
      CountedSizes(s0, symbols[..], g0, info, context, v, delta, symbol, link);
      UpdateContext(context, count, delta, minimum, s0, g0, h, t, v, symbol, link);
      LearningRepresented(s0, symbols[..], g0, info, names, model, context, v, symbol, link, pending);
      names, model := NamesAfter(names, h, v, symbol), Learn(model, h, v);
    }

    /** Codes the slot of a value in a context, or the context's escape, or nothing. */
    static method EncodeOwn(escapes: uint16, total: uint16, under: uint16, count: uint16, low0: uint32, range0: uint32,
                            out: array<byte>, n0: nat, ghost h: History, ghost t: Context, ghost v: byte)
        returns (ok: bool, low: uint32, range: uint32, n: nat)
      requires Ready(Coder(low0, range0)) && n0 <= out.Length && forall e <- OwnSlots(h, t, v) :: Codable(e)
      requires escapes == t.escapes && total == Total(t, Minimum(h))
      requires under == Below(t.freq, Minimum(h), v) && count == Minimum(h) + t.freq[v]
      modifies out
      ensures var own, c0 := OwnSlots(h, t, v), Coder(low0, range0);
        && (ok <==> n0 + |Emitted(c0, own)| <= out.Length)
        && (ok ==> n == n0 + |Emitted(c0, own)| && out[..n] == old(out[..n0]) + Emitted(c0, own))
        && (ok ==> Coder(low, range) == CoderAfter(c0, own))
    {
      hide Below, Narrow, Settle, Mass;
      ok, low, range, n := true, low0, range0, n0;
      ghost var own := OwnSlots(h, t, v);
      if own != [] {
        OneSlot(Coder(low0, range0), own[0]);
      }
      if count > 0 {
        assert own == [Slot(escapes + under, count, total)];
        ok, low, range, n := EncodeSlot(low, range, escapes + under, count, total, out, n);
      } else if escapes > 0 && escapes < total {
        assert own == [Slot(0, escapes, total)];
        ok, low, range, n := EncodeSlot(low, range, 0, escapes, total, out, n);
      }
    }

    /** One turn of compress's walk: value in one context. */
    method EncodeIn(context: nat, value: byte, delta: byte, minimum: nat, link: nat, low0: uint32, range0: uint32,
                    out: array<byte>, n0: nat, ghost pending: nat)
        returns (ok: bool, symbol: nat, stop: bool, low: uint32, range: uint32, n: nat)
      requires Represented(pending) && nextSymbol < MAX_SYMBOLS && context < |info| && |names.of[context]| <= ORDER
      requires minimum == Minimum(names.of[context]) && delta == Delta(names.of[context])
      requires LinkOk(names, names.of[context], value, link, pending)
      requires Ready(Coder(low0, range0)) && n0 <= out.Length
      requires forall e <- OwnSlots(names.of[context], ContextAt(model, names.of[context]), value) :: Codable(e)
      modifies this`nextSymbol, this`info, this`predicted, this`names, this`model, symbols, out
      ensures var own := OwnSlots(old(names).of[context], ContextAt(old(model), old(names).of[context]), value);
        var c0 := Coder(low0, range0);
        && (ok <==> n0 + |Emitted(c0, own)| <= out.Length)
        && (ok ==> n == n0 + |Emitted(c0, own)| && out[..n] == old(out[..n0]) + Emitted(c0, own))
        && (ok ==> Coder(low, range) == CoderAfter(c0, own))
      ensures ok ==> stop == Knows(old(names).of[context], ContextAt(old(model), old(names).of[context]), value)
      ensures ok ==> Represented(PendingAfter(old(names), old(names).of[context], symbol))
      ensures ok ==> LearnedIn(old(names), old(model), names, model, context, value, symbol)
      ensures ok ==> predicted == if link == 0 then symbol else old(predicted)
    {
      hide Trees, Counted, TablesOk, NamesOk, ParentsOk, Below, Represents, Emitted, CoderAfter, OwnSlots, Total, LinkOk, LearnedIn, Holds;
      Sizes(symbols[..], info, names, model, pending);
      ghost var s0, g0, h := symbols[..], info, names.of[context];
      ghost var t := ContextAt(model, h);
      LinkBounds(names, h, value, link, pending);
      var under, count;
      symbol, under, count := Visit(context, value, delta, minimum, link, pending);
      CountedSizes(s0, symbols[..], g0, info, context, value, delta, symbol, link);
      ok, low, range, n := EncodeOwn(symbols[context].escapes, symbols[context].total, under, count, low0, range0, out, n0, h, t, value);
      stop := count > 0;
      if ok {
        FinishVisit(context, count, delta, minimum, s0, g0, h, t, value, symbol, link, pending);
      }
    }

    /** The state between two bytes: predicted is the entry of the history. */
    ghost predicate Between()
      reads this, symbols
    {
      && Represented(0) && PpmModel.Valid(model)
      && predicted < |info| && |info| == |names.of| && names.of[predicted] == model.history
      && order == |model.history|
    }

    /** ENET_CONTEXT_CREATE of the root, and the start of a new model. */
    method Reset()
      requires symbols.Length == MAX_SYMBOLS
      modifies this, symbols
      ensures Between() && model == Empty()
    {
      nextSymbol := 0;
      var root := CreateSymbol(0, 0);
      symbols[root] := symbols[root].(escapes := ESCAPE_MINIMUM, total := ESCAPE_MINIMUM + 256 * SYMBOL_MINIMUM);
      predicted, order := 0, 0;
      info, names, model := [Info(0, 0, 0, Zeros(), Zeros())], Names([[]], map[[] := 0]), Empty();
      hide Trees, Represents, PpmModel.Valid;
      SingleRoot(symbols[..]);
      RootRepresents(symbols[..]);
      EmptyValid();
    }

    /** The end of both loops: the history moves on, and the model starts over when it is nearly full. */
    method NextHistory(value: byte)
      requires Represented(0) && TablesOk(model) && |model.history| <= ORDER && order == |model.history|
      requires predicted < |info| && |info| == |names.of| && names.of[predicted] == model.history + [value]
      modifies this, symbols
      ensures Between() && model == NextByte(old(model), value)
    {
      hide Trees, TablesOk, Represents, Holds;
      Sizes(symbols[..], info, names, model, 0);
      ghost var m := model;
      if order >= ORDER {
        ParentEntry(symbols[..], info, names, model, 0, predicted);
        assert (model.history + [value])[1..] == model.history[1..] + [value];
        predicted := symbols[predicted].parent;
        model := model.(history := model.history[1..] + [value]);
      } else {
        order := order + 1;
        model := model.(history := model.history + [value]);
      }
      HistoryMoved(symbols[..], info, names, m, model.history);
      Sizes(symbols[..], info, names, model, 0);
      if nextSymbol >= MAX_SYMBOLS - ORDER {
        Reset();
      }
    }

    /** One turn of compress's main loop: codes value in the contexts from the longest down, until
        one that knows it, and learns it in each of them. */
    method EncodeByte(value: byte, low0: uint32, range0: uint32, out: array<byte>, n0: nat)
        returns (ok: bool, low: uint32, range: uint32, n: nat)
      requires Between() && Ready(Coder(low0, range0)) && n0 <= out.Length
      modifies this, symbols, out
      ensures forall e <- Slots(old(model), old(model).history, value) :: Codable(e)
      ensures var es, c0 := Slots(old(model), old(model).history, value), Coder(low0, range0);
        && (ok <==> n0 + |Emitted(c0, es)| <= out.Length)
        && (ok ==> n == n0 + |Emitted(c0, es)| && out[..n] == old(out[..n0]) + Emitted(c0, es))
        && (ok ==> Coder(low, range) == CoderAfter(c0, es))
      ensures ok ==> Between() && model == AfterByte(old(model), value)
    {
      hide Trees, Represents, Emitted, CoderAfter, OwnSlots, LinkOk, LearnedIn, Learn, NamesAfter, TablesOk, Knows, Slots, LearnDown;
      ghost var m0, h0 := model, model.history;
      ghost var es, c0 := Slots(m0, h0, value), Coder(low0, range0);
      Sizes(symbols[..], info, names, model, 0);
      SlotsCodable(m0, h0, value);
      ghost var goal, last := old(out[..n0]) + Emitted(c0, es), CoderAfter(c0, es);
      ghost var h, pending: nat := h0, 0;
      ok, low, range, n := true, low0, range0, n0;
      var context: nat, link: nat, stop := predicted, 0, false;
      StartWalk(symbols[..], info, names, model, h0, value, context);
      while context != 0
        invariant Represented(pending) && TablesOk(model) && context < |info| && |info| == |names.of| && names.of[context] == h
        invariant |info| + |h| < MAX_SYMBOLS && |h| <= ORDER && (h == [] <==> context == 0)
        invariant LinkOk(names, h, value, link, pending) && model.history == h0 && order == |h0|
        invariant if link == 0 then h == h0 else predicted < |info| && names.of[predicted] == h0 + [value]
        invariant Ready(Coder(low, range)) && n0 <= n <= out.Length
        invariant forall e <- Slots(model, h, value) :: Codable(e)
        invariant LearnDown(m0, h0, value) == LearnDown(model, h, value)
        invariant out[..n] + Emitted(Coder(low, range), Slots(model, h, value)) == goal
        invariant CoderAfter(Coder(low, range), Slots(model, h, value)) == last
        decreases |h|
      {
        ghost var m, n', c := model, names, Coder(low, range);
        CodingWalk(m, h, value, c);
        var symbol;
        ok, symbol, stop, low, range, n := EncodeIn(context, value, SUB_SYMBOL_DELTA, 0, link, low, range, out, n, pending);
        if !ok {
          return;
        }
        LearnedKeeps(n', m, names, model, context, value, symbol);
        pending := PendingAfter(n', h, symbol);
        link := symbol;
        Sizes(symbols[..], info, names, model, pending);
        LearnDownStep(m, h, value);
        if stop {
          KnownIsDone(n', m, names, model, context, h, value, symbol);
          break;
        }
        WalkStep(n', m, symbols[..], info, names, model, h, value, context, symbol);
        SlotsAfterLearn(m, h, h[1..], value);
        context := symbols[context].parent;
        h := h[1..];
      }
      if !stop {
        ghost var m, n' := model, names;
        CodingWalk(m, [], value, Coder(low, range));
        var symbol, known;
        ok, symbol, known, low, range, n := EncodeIn(0, value, SYMBOL_DELTA, SYMBOL_MINIMUM, link, low, range, out, n, pending);
        if !ok {
          return;
        }
        LearnedKeeps(n', m, names, model, 0, value, symbol);
        Sizes(symbols[..], info, names, model, 0);
        LearnDownStep(m, [], value);
      }
      NextHistory(value);
    }

    /** enet_range_coder_compress. A buffer after the first must not be empty, because the next byte
        is read without a second test; 0 is returned when the output buffer is too small. */
    method Compress(inBuffers: seq<seq<byte>>, inLimit: nat, out: array<byte>) returns (n: nat)
      requires symbols.Length == MAX_SYMBOLS
      requires forall i :: 1 <= i < |inBuffers| ==> inBuffers[i] != []
      modifies this, symbols, out
      ensures |inBuffers| == 0 || inLimit == 0 ==> n == 0
      ensures |inBuffers| != 0 && inLimit != 0 ==>
        var bytes := PpmRoundTrip.Compress(Flatten(inBuffers));
        if |bytes| <= out.Length then n == |bytes| && out[..n] == bytes else n == 0
    {
      hide Trees, Represents, AllSlots, Slots, Stream, Flush, Emitted, CoderAfter, PpmModel.Valid, AfterByte;
      n := 0;
      if |inBuffers| == 0 || inLimit == 0 {
        return;
      }
      ghost var rest, bytes := Flatten(inBuffers), PpmRoundTrip.Compress(Flatten(inBuffers));
      Reset();
      var low: uint32, range: uint32 := START.low, START.range;
      var buffer, pos, next := inBuffers[0], 0, 1;
      AllSlotsCodable(model, rest);
      while true
        invariant Between() && Ready(Coder(low, range)) && n <= out.Length
        invariant 0 <= pos <= |buffer| && 1 <= next <= |inBuffers| && rest == buffer[pos..] + Flatten(inBuffers[next..])
        invariant forall e <- AllSlots(model, rest) :: Codable(e)
        invariant out[..n] + Stream(Coder(low, range), AllSlots(model, rest)) == bytes
        decreases |rest|
      {
        if pos >= |buffer| {
          if next >= |inBuffers| {
            break;
          }
          assert inBuffers[next..] == [inBuffers[next]] + inBuffers[next + 1..];
          buffer, pos := inBuffers[next], 0;
          next := next + 1;
        }
        var value := buffer[pos];
        pos := pos + 1;
        ghost var m, c := model, Coder(low, range);
        assert rest == [value] + rest[1..];
        CompressStep(m, c, rest);
        var ok;
        ok, low, range, n := EncodeByte(value, low, range, out, n);
        if !ok {
          return 0;
        }
        rest := rest[1..];
      }
      StreamAtEnd(model, Coder(low, range));
      var ok;
      ok, n := FlushLow(low, out, n);
      if !ok {
        return 0;
      }
    }

    /** Finds the symbol of a code in a context and lets the context learn it. */
    method TakeSymbol(context: nat, code: uint16, delta: byte, minimum: nat)
        returns (found: bool, symbol: nat, value: byte, under: uint16, count: uint16)
      requires Represented(0) && nextSymbol < MAX_SYMBOLS && context < |info| && context < |names.of|
      requires |names.of[context]| <= ORDER
      requires minimum == Minimum(names.of[context]) && delta == Delta(names.of[context])
      requires minimum == 1 ==> code < Below(ContextAt(model, names.of[context]).freq, minimum, 256)
      modifies this`nextSymbol, this`info, this`names, this`model, symbols
      ensures found <==> code < Below(ContextAt(old(model), old(names).of[context]).freq, minimum, 256)
      ensures found ==> var t := ContextAt(old(model), old(names).of[context]);
        && value == Find(t.freq, minimum, code, 256)
        && under == Below(t.freq, minimum, value) && count == minimum + t.freq[value]
      ensures found ==> Represented(0) && LearnedIn(old(names), old(model), names, model, context, value, symbol)
    {
      hide Trees, Represents, LearnedIn, Counted, Below, Find, TablesOk;
      ghost var s0, g0, h := symbols[..], info, names.of[context];
      ghost var t := ContextAt(model, h);
      Sizes(s0, g0, names, model, 0);
      ContextFields(s0, g0, names, model, 0, context);
      ValidContext(model, h);
      StartWalk(s0, g0, names, model, h, 0, context);
      found, symbol, value, under, count := ContextDecode(context, code, delta, minimum);
      if found {
        SlotHeld(h, t, code, value);
        CountedSizes(s0, symbols[..], g0, info, context, value, delta, symbol, 0);
        NothingToLink(names, h, value);
        FinishVisit(context, count, delta, minimum, s0, g0, h, t, value, symbol, 0, 0);
        KnownIsDone(old(names), old(model), names, model, context, h, value, symbol);
      }
    }

    /** What decompress reads in one context of its walk down. If it reads a symbol, the context learns it. */
    method ReadContext(context: nat, delta: byte, minimum: nat, low0: uint32, range0: uint32, code0: uint32,
                       input: seq<byte>, pos0: nat)
        returns (r: ReadKind, symbol: nat, value: byte, low: uint32, range: uint32, code: uint32, pos: nat)
      requires Represented(0) && nextSymbol < MAX_SYMBOLS && context < |info| && context < |names.of|
      requires |names.of[context]| <= ORDER
      requires minimum == Minimum(names.of[context]) && delta == Delta(names.of[context])
      requires ContextOk(names.of[context], ContextAt(model, names.of[context]))
      requires pos0 <= |input| && Ready(Coder(low0, range0))
      modifies this`nextSymbol, this`info, this`names, this`model, symbols
      ensures pos <= |input|
      ensures var d := DecoderOf(low, range, code, input, pos);
        match ReadIn(old(names).of[context], ContextAt(old(model), old(names).of[context]), DecoderOf(low0, range0, code0, input, pos0))
        case Skip => r == Skipped && low == low0 && range == range0 && code == code0 && pos == pos0
        case Escape(next) => r == Escaped && d == next
        case Symbol(v, next) => r == Taken && value == v && d == next
        case Beyond => r == PastTotal
      ensures r == Skipped || r == Escaped ==> unchanged(this) && symbols[..] == old(symbols[..])
      ensures r == Taken ==> Represented(0) && LearnedIn(old(names), old(model), names, model, context, value, symbol)
    {
      hide Trees, Represents, LearnedIn, Advance, Mass, Below, Find, ReadIn, Read;
      symbol, value, low, range, code, pos := 0, 0, low0, range0, code0, pos0;
      ghost var h, d := names.of[context], DecoderOf(low0, range0, code0, input, pos0);
      ghost var t := ContextAt(model, h);
      ContextFields(symbols[..], info, names, model, 0, context);
      ReadInCases(h, t, d);
      var escapes, total := symbols[context].escapes, symbols[context].total;
      if minimum == 0 && (escapes == 0 || escapes >= total) {
        return Skipped, symbol, value, low, range, code, pos;
      }
      var read;
      read, range := ReadCode(low, range, code, total, d);
      if read < escapes {
        low, range, code, pos := DecodeSlot(low, range0, code, input, pos, 0, escapes, total, range);
        return Escaped, symbol, value, low, range, code, pos;
      }
      BelowAll(h, t);
      if minimum == 1 && read - escapes >= total - escapes {
        return PastTotal, symbol, value, low, range, code, pos;
      }
      var found, under, count;
      found, symbol, value, under, count := TakeSymbol(context, read - escapes, delta, minimum);
      if !found {
        return PastTotal, symbol, value, low, range, code, pos;
      }
      low, range, code, pos := DecodeSlot(low, range0, code, input, pos, escapes + under, count, total, range);
      r := Taken;
    }

    /** decompress's walk down: the first context whose code is a symbol, and that symbol's value. */
    method SearchByte(low0: uint32, range0: uint32, code0: uint32, input: seq<byte>, pos0: nat)
        returns (r: SearchKind, subcontext: nat, bottom: nat, value: byte, low: uint32, range: uint32, code: uint32, pos: nat)
      requires Between() && pos0 <= |input| && Ready(Coder(low0, range0))
      modifies this`nextSymbol, this`info, this`names, this`model, symbols
      ensures pos <= |input|
      ensures match SearchDown(old(model), old(model).history, DecoderOf(low0, range0, code0, input, pos0))
        case Found(h, v, d') =>
          && r == SymbolRead && value == v && DecoderOf(low, range, code, input, pos) == d'
          && subcontext < |old(names).of| && old(names).of[subcontext] == h
          && |h| <= |old(model).history| && h == old(model).history[|old(model).history| - |h|..]
          && Represented(0) && LearnedIn(old(names), old(model), names, model, subcontext, v, bottom)
        case End => r == EndRead
        case Reject => r == Rejecting
        case Malformed => r == OutOfModel
    {
      hide Trees, Represents, LearnedIn, ReadIn, TablesOk, ContextOk, SearchDown, ContextAt;
      Sizes(symbols[..], info, names, model, 0);
      ghost var h0, h := model.history, model.history;
      ghost var goal := SearchDown(model, h0, DecoderOf(low0, range0, code0, input, pos0));
      low, range, code, pos := low0, range0, code0, pos0;
      subcontext, bottom, value := predicted, 0, 0;
      StartWalk(symbols[..], info, names, model, h, 0, subcontext);
      var kind;
      while subcontext != 0
        invariant unchanged(this) && symbols[..] == old(symbols[..])
        invariant subcontext < |info| && names.of[subcontext] == h && (h == [] <==> subcontext == 0)
        invariant |h| <= |h0| && h == h0[|h0| - |h|..]
        invariant pos <= |input| && Ready(Coder(low, range))
        invariant SearchDown(model, h, DecoderOf(low, range, code, input, pos)) == goal
        decreases |h|
      {
        SearchStep(model, h, DecoderOf(low, range, code, input, pos));
        kind, bottom, value, low, range, code, pos := ReadContext(subcontext, SUB_SYMBOL_DELTA, 0, low, range, code, input, pos);
        if kind == Taken {
          return SymbolRead, subcontext, bottom, value, low, range, code, pos;
        }
        if kind == PastTotal {
          return Rejecting, subcontext, bottom, value, low, range, code, pos;
        }
        ParentEntry(symbols[..], info, names, model, 0, subcontext);
        subcontext := symbols[subcontext].parent;
        h := h[1..];
        StartWalk(symbols[..], info, names, model, h, 0, subcontext);
      }
      SearchStep(model, h, DecoderOf(low, range, code, input, pos));
      kind, bottom, value, low, range, code, pos := ReadContext(0, SYMBOL_DELTA, SYMBOL_MINIMUM, low, range, code, input, pos);
      r := match kind case Taken => SymbolRead case PastTotal => OutOfModel case _ => EndRead;
    }

    /** One turn of the walk up. */
    method PatchIn(context: nat, value: byte, link: nat, ghost pending: nat) returns (symbol: nat)
      requires Represented(pending) && nextSymbol < MAX_SYMBOLS && context < |info| && context < |names.of|
      requires 1 <= |names.of[context]| <= ORDER && LinkOk(names, names.of[context], value, link, pending)
      modifies this`nextSymbol, this`info, this`predicted, this`names, this`model, symbols
      ensures Represented(PendingAfter(old(names), old(names).of[context], symbol))
      ensures LearnedIn(old(names), old(model), names, model, context, value, symbol)
      ensures predicted == if link == 0 then symbol else old(predicted)
    {
      hide Trees, Represents, LearnedIn, LinkOk, Counted, Holds, ContextOk, Below, Total;
      ghost var s0, g0, h := symbols[..], info, names.of[context];
      ghost var t := ContextAt(model, h);
      Sizes(s0, g0, names, model, pending);
      LinkBounds(names, h, value, link, pending);
      var under, count;
      symbol, under, count := Visit(context, value, SUB_SYMBOL_DELTA, 0, link, pending);
      CountedSizes(s0, symbols[..], g0, info, context, value, SUB_SYMBOL_DELTA, symbol, link);
      FinishVisit(context, count, SUB_SYMBOL_DELTA, 0, s0, g0, h, t, value, symbol, link, pending);
    }

    /** decompress's walk up: the contexts above the one where the symbol was found learn it too. */
    method PatchContexts(value: byte, subcontext: nat, bottom: nat)
      requires Represented(0) && TablesOk(model) && predicted < |names.of| && names.of[predicted] == model.history
      requires |model.history| <= ORDER && subcontext < |names.of| && bottom < |names.of|
      requires var h, stop := model.history, names.of[subcontext];
        |stop| <= |h| && stop == h[|h| - |stop|..] && names.of[bottom] == stop + [value] && |info| + |h| - |stop| <= MAX_SYMBOLS
      modifies this`nextSymbol, this`info, this`predicted, this`names, this`model, symbols
      ensures Represented(0) && TablesOk(model) && predicted < |info| == |names.of|
      ensures model == LearnAbove(old(model), old(model).history, old(names).of[subcontext], value)
      ensures model.history == old(model).history && names.of[predicted] == model.history + [value]
    {
      hide Trees, Represents, LearnedIn, TablesOk, LinkOk, Learn, LearnAbove, Counted, PendingAfter;
      Sizes(symbols[..], info, names, model, 0);
      ghost var m0, h0, stop := model, model.history, names.of[subcontext];
      ghost var h, pending: nat := h0, 0;
      var patch: nat, link: nat := predicted, 0;
      StartWalk(symbols[..], info, names, model, h, value, patch);
      SameEntry(symbols[..], info, names, model, 0, patch, subcontext);
      while patch != subcontext
        invariant Represented(pending) && TablesOk(model) && patch < |info| && |info| == |names.of| && names.of[patch] == h
        invariant subcontext < |info| && bottom < |info| && names.of[subcontext] == stop && names.of[bottom] == stop + [value]
        invariant |stop| <= |h| <= ORDER && stop == h[|h| - |stop|..] && (patch == subcontext <==> h == stop)
        invariant |info| + |h| - |stop| <= MAX_SYMBOLS
        invariant LinkOk(names, h, value, link, pending) && model.history == h0
        invariant if link == 0 then h == h0 else predicted < |info| && names.of[predicted] == h0 + [value]
        invariant LearnAbove(m0, h0, stop, value) == LearnAbove(model, h, stop, value)
        decreases |h|
      {
        ghost var m, n := model, names;
        var symbol := PatchIn(patch, value, link, pending);
        LearnedKeeps(n, m, names, model, patch, value, symbol);
        pending := PendingAfter(n, h, symbol);
        link := symbol;
        Sizes(symbols[..], info, names, model, pending);
        LearnAboveStep(m, h, stop, value);
        WalkStep(n, m, symbols[..], info, names, model, h, value, patch, symbol);
        patch := symbols[patch].parent;
        h := h[1..];
        SameEntry(symbols[..], info, names, model, pending, patch, subcontext);
      }
      LearnAboveStep(model, h, stop, value);
      LinkBounds(names, h, value, link, pending);
      if link == 0 {
        predicted := bottom;
      } else {
        LinkPatched(symbols[..], info, names, model, h, value, link, pending, bottom);
        symbols[link] := symbols[link].(parent := bottom);
      }
    }

    /** enet_range_coder_decompress, with the whole of out as its limit. LeftModel stands for an input
        on which the source reads a code beyond the root's total. */
    method Decompress(input: seq<byte>, out: array<byte>) returns (r: ReturnKind, n: nat)
      requires symbols.Length == MAX_SYMBOLS
      modifies this, symbols, out
      ensures match PpmRoundTrip.Decompress(input, out.Length)
        case Output(bytes) => r == Returned && n == |bytes| <= out.Length && out[..n] == bytes
        case Rejected => r == Returned && n == 0
        case OutsideModel => r == LeftModel
    {
      hide Trees, Represents, SearchDown, DecodeAll, LearnedIn, Learn, LearnAbove, TablesOk, DecoderAfterByte, After, NextByte;
      r, n := Returned, 0;
      if |input| == 0 {
        return;
      }
      ghost var result := PpmRoundTrip.Decompress(input, out.Length);
      Reset();
      var low: uint32, range: uint32 := START.low, START.range;
      var code: uint32, pos: nat := SeedCode(input);
      AfterNothing(result);
      while true
        invariant Between() && Ready(Coder(low, range)) && n <= out.Length && pos <= |input|
        invariant After(out[..n], DecodeAll(model, DecoderOf(low, range, code, input, pos), out.Length - n)) == result
        decreases out.Length - n
      {
        ghost var m, names0, d := model, names, DecoderOf(low, range, code, input, pos);
        DecodeStep(m, d, out.Length - n, out[..n]);
        Sizes(symbols[..], info, names, model, 0);
        var kind, subcontext, bottom, value;
        kind, subcontext, bottom, value, low, range, code, pos := SearchByte(low, range, code, input, pos);
        match kind {
          case EndRead => return;
          case Rejecting => return Returned, 0;
          case OutOfModel => return LeftModel, 0;
          case SymbolRead =>
        }
        LearnedKeeps(names0, m, names, model, subcontext, value, bottom);
        Sizes(symbols[..], info, names, model, 0);
        PatchContexts(value, subcontext, bottom);
        if n >= out.Length {
          return Returned, 0;
        }
        ghost var bytes := out[..n];
        out[n] := value;
        n := n + 1;
        assert out[..n] == bytes + [value];
        NextHistory(value);
        DecoderAfter(m, names0.of[subcontext], value);
        assert model == DecoderAfterByte(m, names0.of[subcontext], value);
      }
    }
  }

  datatype ReturnKind = Returned | LeftModel

  datatype ReadKind = Skipped | Escaped | Taken | PastTotal

  datatype SearchKind = SymbolRead | EndRead | Rejecting | OutOfModel

  function Flatten(buffers: seq<seq<byte>>): (bytes: seq<byte>) {
    if buffers == [] then [] else buffers[0] + Flatten(buffers[1..])
  }
}
