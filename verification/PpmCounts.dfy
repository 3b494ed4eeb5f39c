/** What the compressor has learnt after an input, told from the input alone: the counts of every context
    as numbers of places in the input, and the slots of every byte in these numbers. */
module PpmCounts {
  import opened Words
  import opened Frequencies
  import opened CarrylessCoder
  import opened PpmModel
  import opened PpmRoundTrip

  // ---- places in the input

  function LastTwo(w: seq<byte>): seq<byte> { if |w| <= 2 then w else w[|w| - 2..] }

  predicate Ends(w: seq<byte>, h: seq<byte>) { |h| <= |w| && w[|w| - |h|..] == h }

  /** How often b stands directly behind h. */
  function Times(w: seq<byte>, h: seq<byte>, b: byte): nat {
    if w == [] then 0
    else
      var u := w[..|w| - 1];
      Times(u, h, b) + if w[|u|] == b && Ends(u, h) then 1 else 0
  }

  /** b would be new behind the longer context than h at the end of w, if there is one. */
  predicate New(w: seq<byte>, h: seq<byte>, b: byte) {
    |h| == 2 || |h| >= |w| || Times(w, [w[|w| - |h| - 1]] + h, b) == 0
  }

  /** The places behind h where b was coded in h: it was new behind what is longer. */
  function Counted(w: seq<byte>, h: seq<byte>, b: byte): nat {
    if w == [] then 0
    else
      var u := w[..|w| - 1];
      Counted(u, h, b) + if w[|u|] == b && Ends(u, h) && New(u, h, b) then 1 else 0
  }

  /** The same for all bytes smaller than v, which may be 256. */
  function CountedBelow(w: seq<byte>, h: seq<byte>, v: nat): nat {
    if w == [] then 0
    else
      var u := w[..|w| - 1];
      CountedBelow(u, h, v) + if w[|u|] < v && Ends(u, h) && New(u, h, w[|u|]) then 1 else 0
  }

  /** How many different bytes stand behind h. */
  function Kinds(w: seq<byte>, h: seq<byte>): nat {
    if w == [] then 0
    else
      var u := w[..|w| - 1];
      Kinds(u, h) + if Ends(u, h) && Times(u, h, w[|u|]) == 0 then 1 else 0
  }

  /** The contexts at the end of w behind which b is new. */
  function NewIn(w: seq<byte>, h: seq<byte>, b: byte): nat {
    (if Times(w, h, b) == 0 then 1 else 0) + if h == [] then 0 else NewIn(w, h[1..], b)
  }

  /** The root and all symbols. */
  function Symbols(w: seq<byte>): nat {
    if w == [] then 1
    else
      var u := w[..|w| - 1];
      Symbols(u) + NewIn(u, LastTwo(u), w[|u|])
  }

  lemma {:induction false} LongerLess(w: seq<byte>, x: byte, h: seq<byte>, b: byte)
    ensures Times(w, [x] + h, b) <= Times(w, h, b)
  {
    hide Ends;
    if w != [] {
      var u := w[..|w| - 1];
      LongerLess(u, x, h, b);
      LongerEnds(u, x, h);
    }
  }

  lemma LongerEnds(w: seq<byte>, x: byte, h: seq<byte>)
    ensures Ends(w, [x] + h) ==> Ends(w, h)
  {
    if Ends(w, [x] + h) {
      assert w[|w| - |h|..] == w[|w| - |h| - 1..][1..] == ([x] + h)[1..] == h;
    }
  }

  lemma {:induction false} CountedSome(w: seq<byte>, h: seq<byte>, b: byte)
    requires |h| <= 2
    ensures Counted(w, h, b) > 0 <==> Times(w, h, b) > 0
    ensures Counted(w, h, b) <= Times(w, h, b) <= |w|
  {
    if w != [] {
      var u := w[..|w| - 1];
      CountedSome(u, h, b);
      if Ends(u, h) && |h| < |u| {
        LongerLess(u, u[|u| - |h| - 1], h, b);
      }
    }
  }

  lemma {:induction false} BelowEnds(w: seq<byte>, h: seq<byte>, v: nat)
    ensures CountedBelow(w, h, 0) == 0
    ensures v < 256 ==> CountedBelow(w, h, v + 1) == CountedBelow(w, h, v) + Counted(w, h, v)
    ensures Kinds(w, h) <= CountedBelow(w, h, 256) <= |w|
  {
    if w != [] {
      var u := w[..|w| - 1];
      BelowEnds(u, h, v);
      if Ends(u, h) && |h| < |u| {
        LongerLess(u, u[|u| - |h| - 1], h, w[|u|]);
      }
    }
  }

  lemma {:induction false} KindsSome(w: seq<byte>, h: seq<byte>)
    ensures Kinds(w, h) > 0 <==> CountedBelow(w, h, 256) > 0
  {
    if w != [] {
      var u, b := w[..|w| - 1], w[|w| - 1];
      KindsSome(u, h);
      if Ends(u, h) && Times(u, h, b) > 0 {
        HasKind(u, h, b);
      }
      if Ends(u, h) && |h| < |u| {
        LongerLess(u, u[|u| - |h| - 1], h, b);
      }
    }
  }

  lemma {:induction false} HasKind(w: seq<byte>, h: seq<byte>, b: byte)
    requires Times(w, h, b) > 0
    ensures Kinds(w, h) > 0
  {
    var u := w[..|w| - 1];
    if Times(u, h, b) > 0 {
      HasKind(u, h, b);
    }
  }

  // ---- what one byte teaches, in the source's numbers

  /** A context behind a history, or the root, when it has coded v: two more, or three, and five more for the
      escape of what is new. If that is too much, everything is halved, the odd ones upwards. */
  lemma BumpIs(h: History, c: Context, v: byte)
    ensures var r, f, e := Bump(h, c, v), c.freq, if h != [] && c.freq[v] == 0 then c.escapes + 5 else c.escapes;
      var up := if h == [] then 3 else 2;
      var full := f[v] > (if h == [] then 249 else 251) || e + Mass(f) + up + (if h == [] then 256 else 0) > 65280;
      && r.escapes == (if full then (e + 1) / 2 else e)
      && forall u: byte :: var n := if u == v then f[u] + up else f[u]; r.freq[u] == if full then (n + 1) / 2 else n
  {
    SumUpdate(c.freq, v, c.freq[v] + Delta(h), 0, 256);
  }

  /** What a byte costs in any one table: in the root, where every byte counts one more, its slot behind the escape's;
      in a context its slot if it is known there, else the escape's, or nothing if nothing was coded there yet. */
  lemma OwnSlotsAre(h: History, c: Context, v: byte)
    ensures var e, f, below, mass := c.escapes, c.freq, Sum(c.freq, 0, v), Mass(c.freq);
      OwnSlots(h, c, v) ==
        if h == [] then [Slot(e + v + below, 1 + f[v], e + 256 + mass)]
        else if f[v] > 0 then [Slot(e + below, f[v], e + mass)]
        else if e > 0 && mass > 0 then [Slot(0, e, e + mass)]
        else []
  {
    hide Sum;
  }

  /** The history is the last two bytes, until 4094 of the 4096 symbols are used: then the next byte finds the
      compressor as the first one did. */
  lemma NextByteIs(m: Model, v: byte)
    ensures var n := NextByte(m, v);
      if m.nextSymbol >= 4094 then
        n.history == [] && n.nextSymbol == 1 && n.contexts.Keys == {[]} && n.contexts[[]] == Context(1, Zeros())
      else n == m.(history := if |m.history| < 2 then m.history + [v] else m.history[1..] + [v])
  {
  }

  /** Of the contexts that end the history, from the longest on, those learn that do not know the byte, and
      the first that does; the root knows every byte. */
  predicate Reached(m: Model, h: History, g: History, v: byte) {
    |g| <= |h| && (h == g || (|g| < |h| && ContextAt(m, h).freq[v] == 0 && Reached(m, h[1..], g, v)))
  }

  lemma {:induction false} LearnsWhere(m: Model, h: History, g: History, v: byte)
    ensures ContextAt(LearnDown(m, h, v), g) == if Reached(m, h, g, v) then Bump(g, ContextAt(m, g), v) else ContextAt(m, g)
    ensures LearnDown(m, h, v).history == m.history
    decreases |h|
  {
    hide Bump;
    if !Knows(h, ContextAt(m, h), v) {
      var n := Learn(m, h, v);
      LearnsWhere(n, h[1..], g, v);
      SameBelow(m, n, h, h[1..], g, v);
    }
  }

  lemma {:induction false} SameBelow(m: Model, n: Model, k: History, h: History, g: History, v: byte)
    requires |h| < |k| && forall x :: x != k ==> ContextAt(n, x) == ContextAt(m, x)
    ensures Reached(n, h, g, v) <==> Reached(m, h, g, v)
    decreases |h|
  {
    if |g| < |h| {
      SameBelow(m, n, k, h[1..], g, v);
    }
  }

  // ---- the tables after an input

  /** The table of context h is that of the places in w. */
  ghost predicate TableIs(c: Context, w: seq<byte>, h: History) {
    && c.escapes == (if h == [] then 1 else 5 * Kinds(w, h))
    && forall b: byte :: c.freq[b] == (if h == [] then 3 else 2) * Counted(w, h, b)
  }

  ghost predicate Tabled(m: Model, w: seq<byte>) {
    && m.history == LastTwo(w) && m.nextSymbol == Symbols(w)
    && forall h: History :: |h| <= 2 ==> TableIs(ContextAt(m, h), w, h)
  }

  /** The model after an input. */
  function ModelAfter(w: seq<byte>): Model {
    if w == [] then Empty() else AfterByte(ModelAfter(w[..|w| - 1]), w[|w| - 1])
  }

  /** The table of h has room for one more b: it will not be halved. */
  predicate Room(w: seq<byte>, h: History, b: byte) {
    if h == [] then 3 * Counted(w, h, b) <= 249 && 257 + 3 * CountedBelow(w + [b], h, 256) <= 65280
    else 2 * Counted(w, h, b) <= 251 && 5 * Kinds(w + [b], h) + 2 * CountedBelow(w + [b], h, 256) <= 65280
  }

  /** No table was halved so far, and the symbols were never used up. */
  ghost predicate Calm(w: seq<byte>) {
    w == [] ||
      var u, b := w[..|w| - 1], w[|w| - 1];
      Calm(u) && Symbols(w) < 4094 && forall h: History :: |h| <= 2 && Ends(u, h) && New(u, h, b) ==> Room(u, h, b)
  }

  lemma {:induction false} MassIs(c: Context, w: seq<byte>, h: History, v: nat)
    requires TableIs(c, w, h) && v <= 256
    ensures Sum(c.freq, 0, v) == (if h == [] then 3 else 2) * CountedBelow(w, h, v)
    decreases v
  {
    hide Counted, CountedBelow, Kinds;
    if v == 0 {
      BelowEnds(w, h, 0);
      SumEmpty(c.freq, 0);
    } else {
      MassIs(c, w, h, v - 1);
      BelowEnds(w, h, v - 1);
      SumNext(c.freq, 0, v - 1);
    }
  }

  lemma StartTabled()
    ensures Tabled(Empty(), [])
  {
  }

  lemma KnownIs(m: Model, w: seq<byte>, h: History, b: byte)
    requires Tabled(m, w) && |h| <= 2
    ensures ContextAt(m, h).freq[b] == 0 <==> Times(w, h, b) == 0
  {
    hide Times, Counted, Kinds, Symbols, ContextAt;
    CountedSome(w, h, b);
    assert TableIs(ContextAt(m, h), w, h);
  }

  lemma ReachedNone(m: Model, g: History, b: byte)
    ensures Reached(m, [], g, b) <==> g == []
  {
  }

  lemma ReachedOne(m: Model, y: byte, g: History, b: byte)
    ensures Reached(m, [y], g, b) <==> g == [y] || (g == [] && ContextAt(m, [y]).freq[b] == 0)
  {
    hide ContextAt;
    assert [y][1..] == [];
    ReachedNone(m, g, b);
  }

  lemma ReachedTwo(m: Model, x: byte, y: byte, g: History, b: byte)
    ensures Reached(m, [x, y], g, b) <==> g == [x, y] || (ContextAt(m, [x, y]).freq[b] == 0 && Reached(m, [y], g, b))
  {
    hide ContextAt;
    assert [x, y][1..] == [y];
    ReachedOne(m, y, g, b);
  }

  lemma NewIs(w: seq<byte>, g: History, b: byte)
    requires |g| <= 2
    ensures Ends(w, g) && New(w, g, b) <==>
      if |w| == 0 then g == []
      else var y := w[|w| - 1];
        || (g == [] && Times(w, [y], b) == 0)
        || (|w| == 1 && g == [y])
        || (|w| >= 2 && g == [y] && Times(w, [w[|w| - 2], y], b) == 0)
        || (|w| >= 2 && g == [w[|w| - 2], y])
  {
    hide Times, Ends;
    EndsIs(w, g);
    if g == [] {
      assert |w| >= 1 ==> [w[|w| - 1]] + g == [w[|w| - 1]];
    } else if |g| == 1 {
      assert |w| >= 2 ==> [w[|w| - 2]] + g == [w[|w| - 2], g[0]];
      assert |w| >= 1 ==> [w[|w| - 1]] == g || g[0] != w[|w| - 1];
    }
  }

  lemma EndsIs(w: seq<byte>, g: History)
    requires |g| <= 2
    ensures Ends(w, g) <==>
      if g == [] then true
      else if |g| == 1 then |w| >= 1 && g == [w[|w| - 1]]
      else |w| >= 2 && g == [w[|w| - 2], w[|w| - 1]]
  {
    if |w| >= |g| {
      assert |g| == 1 ==> w[|w| - 1..] == [w[|w| - 1]];
      assert |g| == 2 ==> w[|w| - 2..] == [w[|w| - 2], w[|w| - 1]];
    }
  }

  /** The contexts that learn b are those in front of which it was new. */
  lemma ReachedIs(m: Model, w: seq<byte>, g: History, b: byte)
    requires Tabled(m, w) && |g| <= 2
    ensures Reached(m, LastTwo(w), g, b) <==> Ends(w, g) && New(w, g, b)
  {
    hide Times, Counted, Kinds, Symbols, ContextAt, TableIs, Reached, New, Ends;
    NewIs(w, g, b);
    ReachedNone(m, g, b);
    if |w| > 0 {
      var y := w[|w| - 1];
      KnownIs(m, w, [y], b);
      ReachedOne(m, y, g, b);
      if |w| == 1 {
        assert LastTwo(w) == [y];
      } else {
        var x := w[|w| - 2];
        KnownIs(m, w, [x, y], b);
        ReachedTwo(m, x, y, g, b);
        LongerLess(w, x, [y], b);
        assert [x] + [y] == [x, y] && LastTwo(w) == [x, y];
      }
    }
  }

  lemma CountedOn(w: seq<byte>, h: History, b: byte, u: byte)
    ensures Counted(w + [b], h, u) == Counted(w, h, u) + if u == b && Ends(w, h) && New(w, h, b) then 1 else 0
    ensures CountedBelow(w + [b], h, 256) == CountedBelow(w, h, 256) + if Ends(w, h) && New(w, h, b) then 1 else 0
    ensures Kinds(w + [b], h) == Kinds(w, h) + if Ends(w, h) && Times(w, h, b) == 0 then 1 else 0
    ensures Times(w, h, b) == 0 && Ends(w, h) && |h| <= 2 ==> New(w, h, b)
  {
    assert (w + [b])[..|w|] == w;
    if |h| < |w| {
      LongerLess(w, w[|w| - |h| - 1], h, b);
    }
  }

  /** A context that learns b has one place more. */
  lemma TableStep(c: Context, w: seq<byte>, h: History, b: byte)
    requires TableIs(c, w, h) && |h| <= 2 && Ends(w, h) && New(w, h, b) && Room(w, h, b)
    ensures TableIs(Bump(h, c, b), w + [b], h)
  {
    hide Times, Counted, Kinds, CountedBelow, New, Bump;
    BumpIs(h, c, b);
    MassIs(c, w, h, 256);
    CountedOn(w, h, b, b);
    CountedSome(w, h, b);
    forall u: byte ensures Counted(w + [b], h, u) == Counted(w, h, u) + if u == b then 1 else 0 {
      CountedOn(w, h, b, u);
    }
  }

  /** The others stay as they are. */
  lemma TableStays(c: Context, w: seq<byte>, h: History, b: byte)
    requires TableIs(c, w, h) && |h| <= 2 && !(Ends(w, h) && New(w, h, b))
    ensures TableIs(c, w + [b], h)
  {
    hide Times, Counted, Kinds, CountedBelow, New;
    CountedOn(w, h, b, b);
    forall u: byte ensures Counted(w + [b], h, u) == Counted(w, h, u) {
      CountedOn(w, h, b, u);
    }
  }

  lemma {:induction false} AllKnown(w: seq<byte>, h: History, b: byte)
    requires Times(w, h, b) > 0
    ensures NewIn(w, h, b) == 0
    decreases |h|
  {
    if h != [] {
      assert h == [h[0]] + h[1..];
      LongerLess(w, h[0], h[1..], b);
      AllKnown(w, h[1..], b);
    }
  }

  /** Every context that learns takes a symbol for what is new in it. */
  lemma {:induction false} SymbolsTaken(m: Model, n: Model, w: seq<byte>, h: History, b: byte)
    requires Tabled(m, w) && |h| <= 2 && forall g: History :: |g| <= |h| ==> ContextAt(n, g) == ContextAt(m, g)
    ensures LearnDown(n, h, b).nextSymbol == n.nextSymbol + NewIn(w, h, b)
    decreases |h|
  {
    hide Times, Counted, Kinds, Symbols, TableIs, Bump, LastTwo;
    KnownIs(m, w, h, b);
    if h != [] && Times(w, h, b) > 0 {
      AllKnown(w, h, b);
    } else if h != [] {
      SymbolsTaken(m, Learn(n, h, b), w, h[1..], b);
    }
  }

  /** One byte more. */
  lemma TabledStep(m: Model, w: seq<byte>, b: byte)
    requires Tabled(m, w) && Symbols(w + [b]) < 4094
    requires forall h: History :: |h| <= 2 && Ends(w, h) && New(w, h, b) ==> Room(w, h, b)
    ensures Tabled(AfterByte(m, b), w + [b])
  {
    hide Times, Counted, Kinds, CountedBelow, Symbols, NewIn, Bump, TableIs, New, Ends, Room, Reached, ContextAt, LearnDown, LastTwo;
    var n := LearnDown(m, LastTwo(w), b);
    LearnsWhere(m, LastTwo(w), [], b);
    HistoryOn(w, b);
    SymbolsOn(w, b);
    SymbolsTaken(m, m, w, LastTwo(w), b);
    NextByteIs(n, b);
    forall h: History | |h| <= 2 ensures TableIs(ContextAt(AfterByte(m, b), h), w + [b], h) {
      LearnsWhere(m, LastTwo(w), h, b);
      ReachedIs(m, w, h, b);
      SameTables(n, AfterByte(m, b), h);
      if Reached(m, LastTwo(w), h, b) {
        TableStep(ContextAt(m, h), w, h, b);
      } else {
        TableStays(ContextAt(m, h), w, h, b);
      }
    }
  }

  lemma SameTables(m: Model, n: Model, h: History)
    requires n.contexts == m.contexts
    ensures ContextAt(n, h) == ContextAt(m, h)
  {
  }

  lemma HistoryOn(w: seq<byte>, b: byte)
    ensures |LastTwo(w)| <= 2 && LastTwo(w + [b]) == if |LastTwo(w)| < 2 then LastTwo(w) + [b] else LastTwo(w)[1..] + [b]
  {
  }

  lemma SymbolsOn(w: seq<byte>, b: byte)
    ensures Symbols(w + [b]) == Symbols(w) + NewIn(w, LastTwo(w), b)
  {
    assert (w + [b])[..|w|] == w;
  }

  /** As long as no table was halved and there are symbols left, every table holds three, or two, for each place
      where the byte was coded there, and five for the escape of each different byte behind the context. */
  lemma {:induction false} TablesAre(w: seq<byte>)
    requires Calm(w)
    ensures Tabled(ModelAfter(w), w)
  {
    hide Times, Counted, Kinds, CountedBelow, Symbols, Tabled, New, Ends, Room, AfterByte;
    if w == [] {
      StartTabled();
    } else {
      var u, b := w[..|w| - 1], w[|w| - 1];
      TablesAre(u);
      assert u + [b] == w;
      TabledStep(ModelAfter(u), u, b);
    }
  }

  /** Whatever the input, this holds for its first 83 bytes. */
  lemma {:induction false} ShortIsCalm(w: seq<byte>)
    requires |w| <= 83
    ensures Calm(w) && Symbols(w) <= 1 + 3 * |w|
  {
    hide *;
    if w == [] {
      NothingIsCalm();
    } else {
      var u, b := w[..|w| - 1], w[|w| - 1];
      assert u + [b] == w;
      ShortIsCalm(u);
      SymbolsOn(u, b);
      FewNew(u, LastTwo(u), b);
      AtMostTwo(u);
      forall h: History | |h| <= 2 ensures Room(u, h, b) {
        ShortRoom(u, h, b);
      }
      CalmMore(u, b);
    }
  }

  lemma NothingIsCalm()
    ensures Calm([]) && Symbols([]) == 1
  {
  }

  lemma AtMostTwo(w: seq<byte>)
    ensures |LastTwo(w)| <= 2
  {
  }

  lemma CalmMore(u: seq<byte>, b: byte)
    requires Calm(u) && Symbols(u + [b]) < 4094 && forall h: History :: |h| <= 2 ==> Room(u, h, b)
    ensures Calm(u + [b])
  {
    hide Room, Symbols, Ends, New;
    assert (u + [b])[..|u|] == u;
  }

  lemma ShortRoom(u: seq<byte>, h: History, b: byte)
    requires |u| <= 82 && |h| <= 2
    ensures Room(u, h, b)
  {
    hide Counted, CountedBelow, Kinds, Ends, New;
    CountedSome(u, h, b);
    BelowEnds(u + [b], h, 0);
  }

  lemma {:induction false} FewNew(w: seq<byte>, h: History, b: byte)
    ensures NewIn(w, h, b) <= |h| + 1
    decreases |h|
  {
    if h != [] {
      FewNew(w, h[1..], b);
    }
  }

  // ---- the slots of a byte

  /** What coding b costs in one context. */
  function Part(w: seq<byte>, h: History, b: byte): seq<Slot> {
    if h == [] then
      [Slot(1 + b + 3 * CountedBelow(w, h, b), 1 + 3 * Counted(w, h, b), 257 + 3 * CountedBelow(w, h, 256))]
    else
      var total := 5 * Kinds(w, h) + 2 * CountedBelow(w, h, 256);
      if Times(w, h, b) > 0 then [Slot(5 * Kinds(w, h) + 2 * CountedBelow(w, h, b), 2 * Counted(w, h, b), total)]
      else if Kinds(w, h) > 0 then [Slot(0, 5 * Kinds(w, h), total)]
      else []
  }

  /** The longest context comes first, and the first that knows b is the last. */
  function Coded(w: seq<byte>, h: History, b: byte): seq<Slot>
    decreases |h|
  {
    Part(w, h, b) + if h == [] || Times(w, h, b) > 0 then [] else Coded(w, h[1..], b)
  }

  function CodedAll(w: seq<byte>): seq<Slot> {
    if w == [] then []
    else
      var u := w[..|w| - 1];
      CodedAll(u) + Coded(u, LastTwo(u), w[|u|])
  }

  lemma PartIs(m: Model, w: seq<byte>, h: History, b: byte)
    requires Tabled(m, w) && |h| <= 2
    ensures OwnSlots(h, ContextAt(m, h), b) == Part(w, h, b)
    ensures Knows(h, ContextAt(m, h), b) <==> h == [] || Times(w, h, b) > 0
  {
    hide Times, Counted, Kinds, CountedBelow, Symbols, ContextAt, LastTwo;
    var c := ContextAt(m, h);
    assert TableIs(c, w, h);
    KnownIs(m, w, h, b);
    MassIs(c, w, h, b);
    MassIs(c, w, h, 256);
    KindsSome(w, h);
  }

  lemma {:induction false} SlotsAre(m: Model, w: seq<byte>, h: History, b: byte)
    requires Tabled(m, w) && |h| <= 2
    ensures Slots(m, h, b) == Coded(w, h, b)
    decreases |h|
  {
    hide Times, Counted, Kinds, CountedBelow, Symbols, ContextAt, LastTwo, TableIs, OwnSlots, Part, Knows;
    PartIs(m, w, h, b);
    if h != [] {
      SlotsAre(m, w, h[1..], b);
    }
  }

  lemma {:induction false} SlotsSplit(m: Model, v: seq<byte>, w: seq<byte>)
    requires m == ModelAfter(v)
    ensures AllSlots(Empty(), v) + AllSlots(m, w) == AllSlots(Empty(), v + w)
    decreases |v|
  {
    hide Slots, AfterByte;
    if v == [] {
      assert v + w == w;
    } else {
      var u, b := v[..|v| - 1], v[|v| - 1];
      assert v + w == u + ([b] + w) && u + [b] == v;
      SlotsSplit(ModelAfter(u), u, [b] + w);
      SlotsSplit(ModelAfter(u), u, [b]);
      assert ([b] + w)[1..] == w && [b][1..] == [];
    }
  }

  /** The stream that the compressor writes codes these slots. */
  lemma {:induction false} CodedAre(w: seq<byte>)
    requires Calm(w)
    ensures AllSlots(Empty(), w) == CodedAll(w)
  {
    hide Times, Counted, Kinds, CountedBelow, Symbols, Tabled, New, Ends, Room, AfterByte, Slots, Coded;
    if w != [] {
      var u, b := w[..|w| - 1], w[|w| - 1];
      assert u + [b] == w;
      CodedAre(u);
      TablesAre(u);
      SlotsSplit(ModelAfter(u), u, [b]);
      TabledHistory(ModelAfter(u), u);
      SlotsAre(ModelAfter(u), u, LastTwo(u), b);
      assert [b][1..] == [];
    }
  }

  lemma TabledHistory(m: Model, w: seq<byte>)
    requires Tabled(m, w)
    ensures m.history == LastTwo(w)
  {
    hide TableIs, LastTwo;
  }

  /** One byte more. */
  lemma CodedOn(w: seq<byte>, b: byte)
    ensures CodedAll(w + [b]) == CodedAll(w) + Coded(w, LastTwo(w), b)
  {
    hide Coded;
    assert (w + [b])[..|w|] == w;
  }

  lemma Grows(w: seq<byte>, x: byte, h: History, b: byte, v: nat)
    ensures Times(w + [x], h, b) == Times(w, h, b) + if x == b && Ends(w, h) then 1 else 0
    ensures Counted(w + [x], h, b) == Counted(w, h, b) + if x == b && Ends(w, h) && New(w, h, x) then 1 else 0
    ensures CountedBelow(w + [x], h, v) == CountedBelow(w, h, v) + if x < v && Ends(w, h) && New(w, h, x) then 1 else 0
    ensures Kinds(w + [x], h) == Kinds(w, h) + if Ends(w, h) && Times(w, h, x) == 0 then 1 else 0
  {
    assert (w + [x])[..|w|] == w;
  }

  /** The slots of the input "aaab". The third letter is the first that a context of one letter codes; the last
      is new behind "aa" and behind "a". */
  lemma FourLetters()
    ensures CodedAll([97, 97, 97, 98]) ==
      [Slot(98, 1, 257), Slot(98, 4, 260), Slot(5, 2, 7), Slot(0, 5, 7), Slot(0, 5, 9), Slot(105, 1, 263)]
  {
    hide Coded, CodedAll, LastTwo;
    assert [97, 97] + [97] == [97, 97, 97] && [97, 97, 97] + [98] == [97, 97, 97, 98];
    TwoLetters();
    CodedOn([97, 97], 97);
    CodedOn([97, 97, 97], 98);
    ThirdLetter();
    FourthLetter();
  }

  lemma TwoLetters()
    ensures CodedAll([97, 97]) == [Slot(98, 1, 257), Slot(98, 4, 260)]
  {
    hide Coded, CodedAll, LastTwo;
    assert [] + [97] == [97] && [97] + [97] == [97, 97];
    CodedOn([], 97);
    CodedOn([97], 97);
    SecondLetter();
  }

  lemma SecondLetter()
    ensures CodedAll([]) == [] && LastTwo([]) == [] && Coded([], [], 97) == [Slot(98, 1, 257)]
    ensures LastTwo([97]) == [97] && Coded([97], [97], 97) == [Slot(98, 4, 260)]
  {
    assert [97][1..] == [];
  }

  lemma ThirdLetter()
    ensures LastTwo([97, 97]) == [97, 97] && Coded([97, 97], [97, 97], 97) == [Slot(5, 2, 7)]
  {
    Grows([97], 97, [97], 97, 0);
    Grows([97], 97, [97, 97], 97, 0);
    assert [97] + [97] == [97, 97] && [97, 97][1..] == [97];
  }

  lemma FourthLetter()
    ensures LastTwo([97, 97, 97]) == [97, 97]
    ensures Coded([97, 97, 97], [97, 97], 98) == [Slot(0, 5, 7), Slot(0, 5, 9), Slot(105, 1, 263)]
  {
    hide Part, Times, CountedBelow, Kinds, Counted;
    var w: seq<byte> := [97, 97, 97];
    FourthIn(w);
    FourthAtRoot(w);
    assert [97, 97][1..] == [97] && [97][1..] == [];
    assert Coded(w, [], 98) == Part(w, [], 98) + [];
    assert Coded(w, [97], 98) == Part(w, [97], 98) + Coded(w, [], 98);
  }

  lemma FourthIn(w: seq<byte>)
    requires w == [97, 97, 97]
    ensures Part(w, [97, 97], 98) == [Slot(0, 5, 7)] && Part(w, [97], 98) == [Slot(0, 5, 9)]
    ensures Times(w, [97, 97], 98) == Times(w, [97], 98) == 0
  {
    assert [97] + [97] == [97, 97] && [97, 97] + [97] == w && [97, 97, 97][1..] == [97, 97] && [97, 97, 97][2..] == [97];
    Grows([97], 97, [97, 97], 98, 256);
    Grows([97], 97, [97], 98, 256);
    Grows([97], 97, [97, 97], 97, 256);
    Grows([97], 97, [97], 97, 256);
    Grows([97, 97], 97, [97, 97], 98, 256);
    Grows([97, 97], 97, [97], 98, 256);
  }

  lemma FourthAtRoot(w: seq<byte>)
    requires w == [97, 97, 97]
    ensures Part(w, [], 98) == [Slot(105, 1, 263)]
  {
    assert [97] + [97] == [97, 97] && [97, 97] + [97] == w;
    Grows([97], 97, [97], 97, 0);
    Grows([97], 97, [], 98, 98);
    Grows([97, 97], 97, [], 98, 98);
    Grows([97], 97, [], 98, 256);
    Grows([97, 97], 97, [], 98, 256);
  }

  // ---- the coder's interval in the source's numbers

  /** The interval starts as [0, 2^32 - 1). One code of a table is worth the quotient of range and total, and a
      slot begins where the codes below it end. */
  lemma IntervalIs(c: Coder, e: Slot)
    requires Ready(c) && Codable(e)
    ensures START == Coder(0, 0xFFFF_FFFF)
    ensures var d, one := Narrow(c, e), c.range / e.total; d.low - c.low == e.under * one && d.range == e.count * one
  {
    SlotFits(c.range, e);
  }

  /** The settling loop stops when the two ends differ in their top byte and 2^16 codes are left. Otherwise it
      emits the top byte of the low end; if the ends differ, the interval goes to the next multiple of 2^16. */
  lemma SettlingIs(c: Coder)
    requires Inv(c)
    ensures var same := c.low / 0x100_0000 == (c.low + c.range) % 0x1_0000_0000 / 0x100_0000;
      var range := if same then c.range else 0x1_0000 - c.low % 0x1_0000;
      if !same && c.range >= 0x1_0000 then Settle(c) == ([], c)
      else
        var d := Coder(c.low * 0x100 % 0x1_0000_0000, range * 0x100 % 0x1_0000_0000);
        Inv(d) && Settle(c) == ([c.low / 0x100_0000] + Settle(d).0, Settle(d).1)
  {
    if !Settled(c) {
      ShiftKeepsInv(c);
      if !SameTop(c) {
        CutAtBlock(c);
        assert (WORD - c.low) % BOTTOM == BOTTOM - c.low % BOTTOM;
      }
    }
  }

  /** A flush writes the low end from its top byte on, up to the last byte that is not 0. */
  lemma {:induction false} FlushIs(low: uint32)
    ensures var f := Flush(low);
      && At(f, 0) * 0x100_0000 + At(f, 1) * 0x1_0000 + At(f, 2) * 0x100 + At(f, 3) == low && |f| <= 4
      && (f != [] ==> f[|f| - 1] != 0)
    decreases FlushRank(low)
  {
    WindowOfFlush(low);
    if low != 0 {
      FlushRankDrops(low);
      FlushIs(low * 0x100 % WORD);
      if low * 0x100 % WORD == 0 {
        ShiftedLow(low);
      }
    }
  }

  /** What the compressor writes, as far as no table was halved. */
  lemma CompressedIs(w: seq<byte>)
    requires Calm(w)
    ensures (forall e <- CodedAll(w) :: Codable(e)) && Compress(w) == Stream(START, CodedAll(w))
  {
    hide Stream, CodedAll, Calm, Codable;
    EmptyValid();
    AllSlotsCodable(Empty(), w);
    CodedAre(w);
  }

  lemma OneCoded(c: Coder, e: Slot, es: seq<Slot>, bs: seq<byte>, d: Coder)
    requires Ready(c) && Codable(e) && (forall x <- es :: Codable(x)) && Settle(Narrow(c, e)) == (bs, d)
    ensures Ready(d) && Stream(c, [e] + es) == bs + Stream(d, es)
  {
    hide Narrow, Settle, Flush;
    assert ([e] + es)[1..] == es;
  }

  /** The narrowed interval is settled at once, or after one byte. */
  lemma Settles(n: Coder, d: Coder)
    requires Inv(n) && Settled(d)
    requires !Settled(n) ==> SameTop(n) && d == Coder(n.low * 0x100 % WORD, n.range * 0x100 % WORD)
    ensures Settle(n) == if Settled(n) then ([], n) else ([n.low / TOP], d)
  {
    if !Settled(n) {
      ShiftKeepsInv(n);
      assert Settle(d) == ([], d) && [n.low / TOP] + [] == [n.low / TOP];
    }
  }

  lemma FirstThreeCoded()
    ensures Settle(Narrow(START, Slot(98, 1, 257))) == ([], Coder(1637769630, 16711935))
    ensures Settle(Narrow(Coder(1637769630, 16711935), Slot(98, 4, 260))) == ([], Coder(1644068678, 257104))
    ensures Settle(Narrow(Coder(1644068678, 257104), Slot(5, 2, 7))) == ([0x62], Coder(21799680, 18805248))
  {
    hide Settle;
    Settles(Coder(1637769630, 16711935), Coder(1637769630, 16711935));
    Settles(Coder(1644068678, 257104), Coder(1644068678, 257104));
    Settles(Coder(1644252323, 73458), Coder(21799680, 18805248));
  }

  lemma NextThreeCoded()
    ensures Settle(Narrow(Coder(21799680, 18805248), Slot(0, 5, 7))) == ([], Coder(21799680, 13432320))
    ensures Settle(Narrow(Coder(21799680, 13432320), Slot(0, 5, 9))) == ([0x01], Coder(1285750784, 1910374400))
    ensures Settle(Narrow(Coder(1285750784, 1910374400), Slot(105, 1, 263))) == ([0x7a], Coder(416596992, 1859527680))
  {
    hide Settle;
    Settles(Coder(21799680, 13432320), Coder(21799680, 13432320));
    Settles(Coder(21799680, 7462400), Coder(1285750784, 1910374400));
    Settles(Coder(2048447684, 7263780), Coder(416596992, 1859527680));
  }

  lemma LastFlushed()
    ensures Flush(416596992) == [0x18, 0xd4, 0xc4]
  {
    hide Flush;
    OneFlushed(416596992);
    OneFlushed(3569614848);
    OneFlushed(3288334336);
    OneFlushed(0);
  }

  lemma OneFlushed(low: uint32)
    ensures Flush(low) == if low == 0 then [] else [low / 0x100_0000] + Flush(low * 0x100 % 0x1_0000_0000)
  {
    if low != 0 {
      FlushRankDrops(low);
    }
  }

  lemma NothingCoded(c: Coder)
    requires Ready(c)
    ensures Stream(c, []) == Flush(c.low)
  {
  }

  lemma LastThreeStream()
    ensures Stream(Coder(21799680, 18805248), [Slot(0, 5, 7), Slot(0, 5, 9), Slot(105, 1, 263)]) == [0x01, 0x7a, 0x18, 0xd4, 0xc4]
  {
    hide Stream, Narrow, Settle, Flush;
    var c4, c5, c6, c7 :=
      Coder(21799680, 18805248), Coder(21799680, 13432320), Coder(1285750784, 1910374400), Coder(416596992, 1859527680);
    var e4, e5, e6 := Slot(0, 5, 7), Slot(0, 5, 9), Slot(105, 1, 263);
    NextThreeCoded();
    LastFlushed();
    NothingCoded(c7);
    OneCoded(c6, e6, [], [0x7a], c7);
    OneCoded(c5, e5, [e6], [0x01], c6);
    OneCoded(c4, e4, [e5, e6], [], c5);
    assert [e6] + [] == [e6] && [e5] + [e6] == [e5, e6] && [e4] + [e5, e6] == [e4, e5, e6];
    assert [0x7a] + [0x18, 0xd4, 0xc4] == [0x7a, 0x18, 0xd4, 0xc4];
    assert [0x01] + [0x7a, 0x18, 0xd4, 0xc4] == [0x01, 0x7a, 0x18, 0xd4, 0xc4];
  }

  lemma AllStream()
    ensures Stream(START, [Slot(98, 1, 257), Slot(98, 4, 260), Slot(5, 2, 7), Slot(0, 5, 7), Slot(0, 5, 9), Slot(105, 1, 263)])
      == [0x62, 0x01, 0x7a, 0x18, 0xd4, 0xc4]
  {
    hide Stream, Narrow, Settle, Flush;
    var c2, c3, c4 := Coder(1637769630, 16711935), Coder(1644068678, 257104), Coder(21799680, 18805248);
    var e1, e2, e3 := Slot(98, 1, 257), Slot(98, 4, 260), Slot(5, 2, 7);
    var es := [Slot(0, 5, 7), Slot(0, 5, 9), Slot(105, 1, 263)];
    FirstThreeCoded();
    LastThreeStream();
    OneCoded(c3, e3, es, [0x62], c4);
    OneCoded(c2, e2, [e3] + es, [], c3);
    OneCoded(START, e1, [e2] + ([e3] + es), [], c2);
    assert [e1] + ([e2] + ([e3] + es)) == [e1, e2, e3, Slot(0, 5, 7), Slot(0, 5, 9), Slot(105, 1, 263)];
    assert [0x62] + [0x01, 0x7a, 0x18, 0xd4, 0xc4] == [0x62, 0x01, 0x7a, 0x18, 0xd4, 0xc4];
  }

  /** The bytes of the input "aaab". */
  lemma FourLettersCompressed()
    ensures Compress([97, 97, 97, 98]) == [0x62, 0x01, 0x7a, 0x18, 0xd4, 0xc4]
  {
    hide Stream, CodedAll, Calm, Codable, Compress;
    var w: seq<byte> := [97, 97, 97, 98];
    ShortIsCalm(w);
    CompressedIs(w);
    FourLetters();
    AllStream();
  }
}
