/** The symbol array of compress.c: every context's symbols form a binary search tree whose links
    are offsets to later array entries, and whose nodes carry the count of their left part. */
module SymbolTrees {
  import opened Words
  import opened Frequencies

  datatype Symbol = Symbol(value: byte, count: byte, under: uint16, left: uint16, right: uint16,
                           symbols: uint16, escapes: uint16, total: uint16, parent: uint16)

  /** ENET_SYMBOL_CREATE */
  function NewSymbol(value: byte, count: byte): Symbol {
    Symbol(value, count, count, 0, 0, 0, 0, 0, 0)
  }

  /** What a proof knows of array entry i besides its fields: as a node, the context own whose tree
      it is in and the interval [lo, hi) of values its subtree covers; as a context, the frequency
      of every value and the entry that holds it (0: none). */
  datatype Info = Info(own: nat, lo: nat, hi: nat, freq: Table, at: Table)

  /** Where a node hangs: the root of a context's tree, or a child of a node. */
  datatype Side = AsRoot | AsLeft | AsRight

  ghost predicate NodeOk(s: seq<Symbol>, g: seq<Info>, i: int)
    requires 1 <= i < |g| <= |s|
  {
    && g[i].own < i
    && g[i].lo <= s[i].value < g[i].hi <= 256
    && 0 < s[i].count
    && g[g[i].own].at[s[i].value] == i
    && s[g[i].own].symbols != 0
    && g[i].own + s[g[i].own].symbols <= i
    && (s[i].left != 0 ==> ChildOk(g, i, i + s[i].left, g[i].lo, s[i].value))
    && (s[i].right != 0 ==> ChildOk(g, i, i + s[i].right, s[i].value + 1, g[i].hi))
  }

  ghost predicate ChildOk(g: seq<Info>, i: int, child: int, lo: int, hi: int)
    requires 1 <= i < |g|
  {
    i < child < |g| && g[child].own == g[i].own && g[child].lo == lo && g[child].hi == hi
  }

  ghost predicate RootOk(s: seq<Symbol>, g: seq<Info>, c: int)
    requires 0 <= c < |g| <= |s|
  {
    s[c].symbols != 0 ==>
      var r := c + s[c].symbols;
      r < |g| && g[r].own == c && g[r].lo == 0 && g[r].hi == 256
  }

  ghost predicate EntryOk(s: seq<Symbol>, g: seq<Info>, c: int, v: int)
    requires 0 <= c < |g| <= |s| && 0 <= v < 256
  {
    var i := g[c].at[v];
    if i == 0 then g[c].freq[v] == 0
    else i < |g| && g[i].own == c && s[i].value == v && s[i].count == g[c].freq[v]
  }

  /** Node j, allocated after node i of the same tree, is below i on the proper side or covers
      values disjoint from those of i. */
  ghost predicate Placed(s: seq<Symbol>, g: seq<Info>, i: int, j: int)
    requires 1 <= i < j < |g| <= |s|
  {
    || g[j].hi <= g[i].lo
    || g[i].hi <= g[j].lo
    || (g[i].lo <= g[j].lo && g[j].hi <= s[i].value && s[i].left != 0 && i + s[i].left <= j)
    || (s[i].value < g[j].lo && g[j].hi <= g[i].hi && s[i].right != 0 && i + s[i].right <= j)
  }

  ghost predicate Nodes(s: seq<Symbol>, g: seq<Info>)
    requires |g| <= |s|
  {
    forall i :: 1 <= i < |g| ==> NodeOk(s, g, i)
  }

  ghost predicate Roots(s: seq<Symbol>, g: seq<Info>)
    requires |g| <= |s|
  {
    forall c :: 0 <= c < |g| ==> RootOk(s, g, c)
  }

  ghost predicate Entries(s: seq<Symbol>, g: seq<Info>)
    requires |g| <= |s|
  {
    forall c, v :: 0 <= c < |g| && 0 <= v < 256 ==> EntryOk(s, g, c, v)
  }

  ghost predicate Order(s: seq<Symbol>, g: seq<Info>)
    requires |g| <= |s|
  {
    forall i, j :: 1 <= i < j < |g| && g[i].own == g[j].own ==> Placed(s, g, i, j)
  }

  /** under is the count of the node and of everything to its left in its subtree. */
  ghost predicate Prefix(s: seq<Symbol>, g: seq<Info>, i: int)
    requires 1 <= i < |g| <= |s|
  {
    && g[i].own < |g|
    && g[i].lo <= s[i].value
    && s[i].under == Sum(g[g[i].own].freq, g[i].lo, s[i].value + 1)
  }

  ghost predicate Sums(s: seq<Symbol>, g: seq<Info>)
    requires |g| <= |s|
  {
    forall i :: 1 <= i < |g| ==> Prefix(s, g, i)
  }

  ghost predicate Trees(s: seq<Symbol>, g: seq<Info>) {
    |g| <= |s| && Nodes(s, g) && Roots(s, g) && Entries(s, g) && Order(s, g) && Sums(s, g)
  }

  // ---- the search path of a value

  /** v lies in the values covered by node i of context c's tree. 256 stands for a value greater
      than all: it is covered by the nodes of the right edge. */
  ghost predicate Covers(g: seq<Info>, c: int, v: int, i: int) {
    1 <= i < |g| && g[i].own == c && g[i].lo <= v && (v < g[i].hi || v == g[i].hi == 256)
  }

  /** The node's under includes v. */
  ghost predicate Counts(s: seq<Symbol>, g: seq<Info>, c: int, v: int, i: int) {
    1 <= i < |g| <= |s| && g[i].own == c && g[i].lo <= v <= s[i].value
  }

  /** No node between the current one and bound covers v: the search has missed nothing. */
  ghost predicate Clear(g: seq<Info>, c: int, v: int, node: int, bound: int) {
    forall i :: node < i < bound ==> !Covers(g, c, v, i)
  }

  lemma PathLeft(s: seq<Symbol>, g: seq<Info>, c: int, v: int, node: int)
    requires Trees(s, g) && 1 <= node < |g| && Covers(g, c, v, node) && v < s[node].value
    ensures Clear(g, c, v, node, if s[node].left != 0 then node + s[node].left else |g|)
    ensures s[node].left != 0 ==> Covers(g, c, v, node + s[node].left) && g[node + s[node].left].lo == g[node].lo
  {
    assert NodeOk(s, g, node);
    forall i | 1 <= i < |g| && node < i < (if s[node].left != 0 then node + s[node].left else |g|) && g[i].own == c
      ensures !Covers(g, c, v, i)
    {
      assert Placed(s, g, node, i);
    }
  }

  lemma PathRight(s: seq<Symbol>, g: seq<Info>, c: int, v: int, node: int)
    requires Trees(s, g) && 1 <= node < |g| && Covers(g, c, v, node) && s[node].value < v
    ensures Clear(g, c, v, node, if s[node].right != 0 then node + s[node].right else |g|)
    ensures s[node].right != 0 ==> Covers(g, c, v, node + s[node].right) && g[node + s[node].right].lo == s[node].value + 1
  {
    assert NodeOk(s, g, node);
    forall i | 1 <= i < |g| && node < i < (if s[node].right != 0 then node + s[node].right else |g|) && g[i].own == c
      ensures !Covers(g, c, v, i)
    {
      assert NodeOk(s, g, i) && Placed(s, g, node, i);
    }
  }

  lemma PathRoot(s: seq<Symbol>, g: seq<Info>, c: int, v: int)
    requires Trees(s, g) && 0 <= c < |g| && 0 <= v <= 256
    ensures Clear(g, c, v, c, if s[c].symbols != 0 then c + s[c].symbols else |g|)
    ensures s[c].symbols != 0 ==> Covers(g, c, v, c + s[c].symbols) && g[c + s[c].symbols].lo == 0
  {
    assert RootOk(s, g, c);
    forall i | 1 <= i < |g| && g[i].own == c
      ensures s[c].symbols != 0 && c + s[c].symbols <= i
    {
      assert NodeOk(s, g, i);
    }
  }

  /** When the search runs off the tree next to node, the value is not in it. */
  lemma PathEnd(s: seq<Symbol>, g: seq<Info>, c: int, v: int, node: int)
    requires Trees(s, g) && 0 <= c <= node < |g| && 0 <= v < 256
    requires node == c || (Covers(g, c, v, node) && s[node].value != v)
    requires Clear(g, c, v, node, |g|)
    ensures g[c].at[v] == 0 && g[c].freq[v] == 0
  {
    assert EntryOk(s, g, c, v);
    var j := g[c].at[v];
    if j != 0 {
      assert NodeOk(s, g, j);
      assert Covers(g, c, v, j);
      assert false;
    }
  }

  /** Below the node that holds v nothing counts v. */
  lemma PathFound(s: seq<Symbol>, g: seq<Info>, c: int, v: int, node: int)
    requires Trees(s, g) && 1 <= node < |g| && Covers(g, c, v, node) && s[node].value == v
    ensures Clear(g, c, v, node, |g|)
    ensures c < |g| && v < 256 && g[c].at[v] == node && s[node].count == g[c].freq[v]
  {
    assert NodeOk(s, g, node);
    assert EntryOk(s, g, c, v);
    forall i | 1 <= i < |g| && node < i && g[i].own == c
      ensures !Covers(g, c, v, i)
    {
      assert Placed(s, g, node, i);
    }
  }

  /** The values a leaf position could hold are all absent. */
  lemma GapIsEmpty(s: seq<Symbol>, g: seq<Info>, c: int, node: int, lo: int, hi: int)
    requires Trees(s, g) && 0 <= c <= node < |g|
    requires (node == c && s[c].symbols == 0 && lo == 0 && hi == 256)
      || (1 <= node && g[node].own == c && s[node].left == 0 && lo == g[node].lo && hi == s[node].value)
      || (1 <= node && g[node].own == c && s[node].right == 0 && lo == s[node].value + 1 && hi == g[node].hi)
    ensures 0 <= lo <= hi <= 256 && Sum(g[c].freq, lo, hi) == 0
    ensures forall v :: lo <= v < hi ==> g[c].freq[v] == 0
    ensures forall v :: lo <= v < hi ==> g[c].at[v] == 0
  {
    if 1 <= node {
      assert NodeOk(s, g, node);
    }
    forall v | lo <= v < hi ensures g[c].freq[v] == 0 && g[c].at[v] == 0 {
      if node == c && s[c].symbols == 0 {
        PathRoot(s, g, c, v);
      } else if v < s[node].value {
        PathLeft(s, g, c, v, node);
      } else {
        PathRight(s, g, c, v, node);
      }
      PathEnd(s, g, c, v, node);
    }
    SumZero(g[c].freq, lo, hi);
  }

  /** The three-way comparison at a node: which way code's value v lies. */
  lemma CompareAt(s: seq<Symbol>, g: seq<Info>, c: int, node: int, minimum: nat, code: int, v: nat)
    requires Trees(s, g) && 1 <= node < |g| && g[node].own == c && 0 <= c < |g| && v <= 256
    requires InSlot(g[c].freq, minimum, code, v)
    ensures g[node].lo <= 256
    ensures var u, under := s[node].value, Sum(g[c].freq, 0, g[node].lo);
      var after, before := under + s[node].under + (u + 1) * minimum, s[node].count + minimum;
      && before <= after <= Below(g[c].freq, minimum, 256)
      && after == Below(g[c].freq, minimum, u + 1) && after - before == Below(g[c].freq, minimum, u)
      && (after <= code <==> u < v) && (code < after - before <==> v < u)
  {
    SlotAt(s, g, c, node);
    CompareSlot(g[c].freq, minimum, code, v, s[node].value);
    BelowNext(g[c].freq, minimum, s[node].value);
    BelowMonotone(g[c].freq, minimum, s[node].value + 1, 256);
  }

  /** With minimum 0 no code leads to a vacant place, except one beyond every slot. */
  lemma NothingHere(s: seq<Symbol>, g: seq<Info>, c: int, node: int, side: Side, code: int, v: nat)
    requires Trees(s, g) && 0 <= c <= node < |g| && v <= 256 && InSlot(g[c].freq, 0, code, v)
    requires match side
      case AsRoot => node == c && s[c].symbols == 0
      case AsLeft => Covers(g, c, v, node) && s[node].left == 0 && v < s[node].value
      case AsRight => Covers(g, c, v, node) && s[node].right == 0 && s[node].value < v
    ensures v == 256
  {
    hide Below, InSlot;
    if v < 256 {
      NoSlot(g[c].freq, code, v);
      match side {
        case AsRoot => GapIsEmpty(s, g, c, node, 0, 256);
        case AsLeft => GapIsEmpty(s, g, c, node, g[node].lo, s[node].value);
        case AsRight => GapIsEmpty(s, g, c, node, s[node].value + 1, g[node].hi);
      }
    }
  }

  // ---- counting a value on the way down

  /** s is s0 after the walk has passed every node below bound: those that count v have update more. */
  ghost predicate Walked(s0: seq<Symbol>, s: seq<Symbol>, g: seq<Info>, c: int, v: int, bound: int, update: nat) {
    && |s| == |s0|
    && forall i :: 0 <= i < |s| ==>
      s[i] == s0[i].(under := s[i].under) && s[i].under == WalkedUnder(s0, g, c, v, bound, update, i)
  }

  ghost function WalkedUnder(s0: seq<Symbol>, g: seq<Info>, c: int, v: int, bound: int, update: nat, i: int): nat
    requires 0 <= i < |s0|
  {
    if i < bound && Counts(s0, g, c, v, i) then s0[i].under + update else s0[i].under
  }

  lemma WalkedAt(s0: seq<Symbol>, s: seq<Symbol>, g: seq<Info>, c: int, v: int, bound: int, update: nat, i: int)
    requires Walked(s0, s, g, c, v, bound, update) && 0 <= i < |s0| && bound <= i
    ensures i < |s| && s[i] == s0[i]
  {
    assert s[i] == s0[i].(under := s[i].under);
  }

  lemma WalkOn(s0: seq<Symbol>, s: seq<Symbol>, s': seq<Symbol>, g: seq<Info>, c: int, v: int, node: int, next: int,
               update: nat)
    requires Trees(s0, g) && 1 <= node < next <= |g| && Clear(g, c, v, node, next)
    requires Walked(s0, s, g, c, v, node, update)
    requires if Counts(s0, g, c, v, node)
             then s[node].under + update < 0x1_0000 && s' == s[node := s[node].(under := s[node].under + update)]
             else s' == s
    ensures Walked(s0, s', g, c, v, next, update)
  {
    forall i | 0 <= i < |s|
      ensures s'[i] == s0[i].(under := s'[i].under) && s'[i].under == WalkedUnder(s0, g, c, v, next, update, i)
    {
      if node < i < next && Counts(s0, g, c, v, i) {
        assert NodeOk(s0, g, i);
        assert Covers(g, c, v, i);
      }
    }
  }

  lemma WalkBegins(s: seq<Symbol>, g: seq<Info>, c: int, v: int, bound: int, update: nat)
    requires Trees(s, g) && 0 <= c < |g| && Clear(g, c, v, c, bound)
    ensures Walked(s, s, g, c, v, bound, update)
  {
    forall i | 0 <= i < bound && i < |s| ensures !Counts(s, g, c, v, i) {
      if 1 <= i < |g| && g[i].own == c {
        assert NodeOk(s, g, i);
        assert !Covers(g, c, v, i);
      }
    }
  }

  /** The slot of the node's value, from the sum in front of its subtree. */
  lemma SlotAt(s: seq<Symbol>, g: seq<Info>, c: int, node: int)
    requires Trees(s, g) && 1 <= node < |g| && g[node].own == c
    ensures 0 <= c < |g| && g[node].lo <= 256
    ensures 0 < s[node].count == g[c].freq[s[node].value] <= s[node].under
    ensures Sum(g[c].freq, 0, g[node].lo) + s[node].under == Sum(g[c].freq, 0, s[node].value + 1)
    ensures Sum(g[c].freq, 0, g[node].lo) + s[node].under - s[node].count == Sum(g[c].freq, 0, s[node].value)
    ensures Sum(g[c].freq, 0, s[node].value + 1) <= Mass(g[c].freq)
  {
    assert NodeOk(s, g, node) && Prefix(s, g, node);
    assert EntryOk(s, g, c, s[node].value);
    var f := g[c].freq;
    SumSplit(f, 0, g[node].lo, s[node].value + 1);
    SumSplit(f, 0, s[node].value + 1, 256);
    SumAtLeast(f, s[node].value, g[node].lo, s[node].value + 1);
  }

  lemma HereCovers(s: seq<Symbol>, g: seq<Info>, c: int, node: int)
    requires Trees(s, g) && 1 <= node < |g| && g[node].own == c
    ensures Covers(g, c, s[node].value, node) && Counts(s, g, c, s[node].value, node)
  {
    assert NodeOk(s, g, node);
  }

  lemma GapSum(f: Table, lo: nat, v: nat, hi: nat)
    requires lo <= v <= hi <= 256 && Sum(f, lo, hi) == 0
    ensures Sum(f, 0, v) == Sum(f, 0, lo)
  {
    SumSplit(f, 0, lo, v);
    SumSplit(f, lo, v, hi);
  }

  lemma UnderFits(s: seq<Symbol>, g: seq<Info>, node: int)
    requires Trees(s, g) && 1 <= node < |g|
    ensures 0 <= g[node].own < |g| && s[node].under <= Mass(g[g[node].own].freq)
  {
    assert NodeOk(s, g, node) && Prefix(s, g, node);
    var f := g[g[node].own].freq;
    SumSplit(f, 0, g[node].lo, s[node].value + 1);
    SumSplit(f, 0, s[node].value + 1, 256);
  }

  /** The ghost companion after v was counted in a node that exists. */
  ghost function CountKnown(g: seq<Info>, c: int, v: byte, update: nat): seq<Info>
    requires 0 <= c < |g|
  {
    g[c := g[c].(freq := g[c].freq[v := g[c].freq[v] + update])]
  }

  lemma KnownSums(s0: seq<Symbol>, s1: seq<Symbol>, g: seq<Info>, c: int, v: byte, update: nat, i: int)
    requires Trees(s0, g) && 0 <= c < |g| <= |s1| && 1 <= i < |g|
    requires s1[i].value == s0[i].value && s1[i].under == WalkedUnder(s0, g, c, v, |g|, update, i)
    ensures Prefix(s1, CountKnown(g, c, v, update), i)
  {
    assert NodeOk(s0, g, i) && Prefix(s0, g, i);
    if g[i].own == c {
      SumUpdate(g[c].freq, v, g[c].freq[v] + update, g[i].lo, s0[i].value + 1);
    }
  }

  lemma CountingKnown(s0: seq<Symbol>, s: seq<Symbol>, s1: seq<Symbol>, g: seq<Info>, c: int, v: byte, node: int,
                      update: nat)
    requires Trees(s0, g) && 0 <= c < |g| && 1 <= node < |g|
    requires Covers(g, c, v, node) && s0[node].value == v
    requires Walked(s0, s, g, c, v, |g|, update)
    requires s[node].count + update < 0x100 && s1 == s[node := s[node].(count := s[node].count + update)]
    ensures Trees(s1, CountKnown(g, c, v, update))
  {
    var g1 := CountKnown(g, c, v, update);
    PathFound(s0, g, c, v, node);
    PositiveCounts(s0, g);
    ShapeKept(s0, s1, g, g1);
    forall i | 1 <= i < |g1| ensures Prefix(s1, g1, i) {
      KnownSums(s0, s1, g, c, v, update, i);
    }
    forall d, u | 0 <= d < |g1| && 0 <= u < 256 ensures EntryOk(s1, g1, d, u) {
      assert EntryOk(s0, g, d, u);
    }
  }

  /** Only counts, sums and frequencies differ. */
  ghost predicate SameShape(s0: seq<Symbol>, s1: seq<Symbol>, g: seq<Info>, g1: seq<Info>) {
    && |s0| == |s1| && |g| == |g1| <= |s0|
    && (forall i :: 0 <= i < |s0| ==>
      s1[i].value == s0[i].value && s1[i].left == s0[i].left && s1[i].right == s0[i].right && s1[i].symbols == s0[i].symbols)
    && (forall i :: 0 <= i < |g| ==>
      g1[i].own == g[i].own && g1[i].lo == g[i].lo && g1[i].hi == g[i].hi && g1[i].at == g[i].at)
  }

  lemma PositiveCounts(s: seq<Symbol>, g: seq<Info>)
    requires Trees(s, g)
    ensures forall i :: 1 <= i < |g| ==> 0 < s[i].count
  {
    forall i | 1 <= i < |g| ensures 0 < s[i].count {
      assert NodeOk(s, g, i);
    }
  }

  lemma ShapeKept(s0: seq<Symbol>, s1: seq<Symbol>, g: seq<Info>, g1: seq<Info>)
    requires Trees(s0, g) && SameShape(s0, s1, g, g1)
    requires forall i :: 1 <= i < |g| ==> 0 < s1[i].count
    ensures Nodes(s1, g1) && Roots(s1, g1) && Order(s1, g1)
  {
    forall i | 1 <= i < |g1| ensures NodeOk(s1, g1, i) {
      assert NodeOk(s0, g, i);
    }
    forall i | 0 <= i < |g1| ensures RootOk(s1, g1, i) {
      assert RootOk(s0, g, i);
    }
    forall i, j | 1 <= i < j < |g1| && g1[i].own == g1[j].own ensures Placed(s1, g1, i, j) {
      assert Placed(s0, g, i, j);
    }
  }

  // ---- attaching a new node

  function Link(a: Symbol, side: Side, offset: uint16): Symbol {
    match side
    case AsRoot => a.(symbols := offset)
    case AsLeft => a.(left := offset)
    case AsRight => a.(right := offset)
  }

  /** The place next to node is free and covers exactly the values [lo, hi). */
  ghost predicate Vacant(s: seq<Symbol>, g: seq<Info>, c: int, node: int, side: Side, lo: int, hi: int) {
    && 0 <= c <= node < |g| <= |s|
    && (side != AsRoot ==> 1 <= node && g[node].own == c)
    && match side
       case AsRoot => node == c && s[c].symbols == 0 && lo == 0 && hi == 256
       case AsLeft => s[node].left == 0 && lo == g[node].lo && hi == s[node].value
       case AsRight => s[node].right == 0 && lo == s[node].value + 1 && hi == g[node].hi
  }

  /** The ghost companion after v was given a new node covering [lo, hi). */
  ghost function CountNew(g: seq<Info>, c: int, v: byte, lo: nat, hi: nat, update: nat): (g1: seq<Info>)
    requires 0 <= c < |g|
    ensures |g1| == |g| + 1
  {
    CountKnown(g, c, v, update)[c := g[c].(freq := g[c].freq[v := g[c].freq[v] + update], at := g[c].at[v := |g|])]
      + [Info(c, lo, hi, Zeros(), Zeros())]
  }

  /** The new array: a fresh symbol behind the last one, and a link to it. */
  ghost predicate Attached(s: seq<Symbol>, s1: seq<Symbol>, k: int, v: byte, node: int, side: Side, update: nat) {
    && 0 <= node < k < |s| <= 0x1_0000 && 0 < update < 0x100
    && s1 == s[k := NewSymbol(v, update)][node := Link(s[node], side, k - node)]
  }

  lemma OldNode(s0: seq<Symbol>, s: seq<Symbol>, s1: seq<Symbol>, g: seq<Info>, c: int, v: byte, node: int, side: Side,
                lo: nat, hi: nat, update: nat, i: int)
    requires Trees(s0, g) && Vacant(s0, g, c, node, side, lo, hi) && lo <= v < hi
    requires hi <= 256 && g[c].at[v] == 0 && g[c].freq[v] == 0 && Sum(g[c].freq, lo, hi) == 0
    requires Walked(s0, s, g, c, v, |g|, update) && Attached(s, s1, |g|, v, node, side, update)
    requires 1 <= i < |g|
    ensures NodeOk(s1, CountNew(g, c, v, lo, hi, update), i)
  {
    var g1 := CountNew(g, c, v, lo, hi, update);
    assert NodeOk(s0, g, i);
    var o := g[i].own;
    assert g1[o].at[s1[i].value] == i;
    assert s1[o].symbols == (if o == node && side == AsRoot then |g| - node else s0[o].symbols);
  }

  lemma NewNodes(s0: seq<Symbol>, s: seq<Symbol>, s1: seq<Symbol>, g: seq<Info>, c: int, v: byte, node: int, side: Side,
                 lo: nat, hi: nat, update: nat)
    requires Trees(s0, g) && Vacant(s0, g, c, node, side, lo, hi) && lo <= v < hi
    requires hi <= 256 && g[c].at[v] == 0 && g[c].freq[v] == 0 && Sum(g[c].freq, lo, hi) == 0
    requires Walked(s0, s, g, c, v, |g|, update) && Attached(s, s1, |g|, v, node, side, update)
    ensures Nodes(s1, CountNew(g, c, v, lo, hi, update))
  {
    var g1 := CountNew(g, c, v, lo, hi, update);
    assert node >= 1 ==> NodeOk(s0, g, node);
    forall i | 1 <= i < |g1| ensures NodeOk(s1, g1, i) {
      if i < |g| {
        OldNode(s0, s, s1, g, c, v, node, side, lo, hi, update, i);
      }
    }
  }

  lemma NewEntries(s0: seq<Symbol>, s: seq<Symbol>, s1: seq<Symbol>, g: seq<Info>, c: int, v: byte, node: int, side: Side,
                   lo: nat, hi: nat, update: nat)
    requires Trees(s0, g) && Vacant(s0, g, c, node, side, lo, hi) && lo <= v < hi
    requires hi <= 256 && g[c].at[v] == 0 && g[c].freq[v] == 0 && Sum(g[c].freq, lo, hi) == 0
    requires Walked(s0, s, g, c, v, |g|, update) && Attached(s, s1, |g|, v, node, side, update)
    ensures Roots(s1, CountNew(g, c, v, lo, hi, update)) && Entries(s1, CountNew(g, c, v, lo, hi, update))
  {
    var g1 := CountNew(g, c, v, lo, hi, update);
    forall i | 0 <= i < |g1| ensures RootOk(s1, g1, i) {
      assert i < |g| ==> RootOk(s0, g, i);
    }
    forall d, u | 0 <= d < |g1| && 0 <= u < 256 ensures EntryOk(s1, g1, d, u) {
      assert d < |g| ==> EntryOk(s0, g, d, u);
    }
  }

  lemma NewSums(s0: seq<Symbol>, s: seq<Symbol>, s1: seq<Symbol>, g: seq<Info>, c: int, v: byte, node: int, side: Side,
                lo: nat, hi: nat, update: nat)
    requires Trees(s0, g) && Vacant(s0, g, c, node, side, lo, hi) && lo <= v < hi
    requires hi <= 256 && g[c].at[v] == 0 && g[c].freq[v] == 0 && Sum(g[c].freq, lo, hi) == 0
    requires Walked(s0, s, g, c, v, |g|, update) && Attached(s, s1, |g|, v, node, side, update)
    ensures Sums(s1, CountNew(g, c, v, lo, hi, update))
  {
    var g1 := CountNew(g, c, v, lo, hi, update);
    forall i | 1 <= i < |g1| ensures Prefix(s1, g1, i) {
      if i < |g| {
        KnownSums(s0, s1, g, c, v, update, i);
      } else {
        NewSum(g[c].freq, v, lo, hi, update);
      }
    }
  }

  lemma NewOrder(s0: seq<Symbol>, s: seq<Symbol>, s1: seq<Symbol>, g: seq<Info>, c: int, v: byte, node: int, side: Side,
                 lo: nat, hi: nat, update: nat)
    requires Trees(s0, g) && Vacant(s0, g, c, node, side, lo, hi) && lo <= v < hi
    requires Walked(s0, s, g, c, v, |g|, update) && Attached(s, s1, |g|, v, node, side, update)
    ensures Order(s1, CountNew(g, c, v, lo, hi, update))
  {
    var g1 := CountNew(g, c, v, lo, hi, update);
    assert node >= 1 ==> NodeOk(s0, g, node);
    forall i, j | 1 <= i < j < |g1| && g1[i].own == g1[j].own ensures Placed(s1, g1, i, j) {
      assert NodeOk(s0, g, i);
      if j < |g| {
        assert Placed(s0, g, i, j);
      } else if i < node {
        assert Placed(s0, g, i, node);
      } else if node < i {
        assert side != AsRoot ==> Placed(s0, g, node, i);
      }
    }
  }

  lemma CountingNew(s0: seq<Symbol>, s: seq<Symbol>, s1: seq<Symbol>, g: seq<Info>, c: int, v: byte, node: int,
                    side: Side, lo: nat, hi: nat, update: nat)
    requires Trees(s0, g) && Vacant(s0, g, c, node, side, lo, hi) && lo <= v < hi
    requires Walked(s0, s, g, c, v, |g|, update) && Attached(s, s1, |g|, v, node, side, update)
    ensures g[c].freq[v] == 0 && |CountNew(g, c, v, lo, hi, update)| == |g| + 1
    ensures Trees(s1, CountNew(g, c, v, lo, hi, update))
  {
    hide Nodes, Roots, Entries, Order, Sums, CountNew;
    GapIsEmpty(s0, g, c, node, lo, hi);
    NewNodes(s0, s, s1, g, c, v, node, side, lo, hi, update);
    NewEntries(s0, s, s1, g, c, v, node, side, lo, hi, update);
    NewOrder(s0, s, s1, g, c, v, node, side, lo, hi, update);
    NewSums(s0, s, s1, g, c, v, node, side, lo, hi, update);
  }

  lemma NewSum(f: Table, v: byte, lo: nat, hi: nat, update: nat)
    requires lo <= v < hi <= 256 && Sum(f, lo, hi) == 0 && f[v] == 0
    ensures Sum(f[v := f[v] + update], lo, v + 1) == update
  {
    SumSplit(f, lo, v + 1, hi);
    SumUpdate(f, v, update, lo, v + 1);
  }

  // ---- rescaling a tree

  /** Node i of context c lies in the values [lo, hi). */
  ghost predicate Inside(g: seq<Info>, c: int, lo: int, hi: int, i: int) {
    1 <= i < |g| && g[i].own == c && lo <= g[i].lo && g[i].hi <= hi
  }

  /** What rescaling makes of node i. */
  ghost predicate HalvedNode(s0: seq<Symbol>, s: seq<Symbol>, g: seq<Info>, c: int, i: int)
    requires 0 <= i < |s0| == |s| && 0 <= c < |g|
  {
    && i < |g| && g[i].lo <= s0[i].value
    && s[i] == s0[i].(count := s0[i].count - s0[i].count / 2, under := s[i].under)
    && s[i].under == Sum(Halve(g[c].freq), g[i].lo, s0[i].value + 1)
  }

  /** s is s0 with exactly those nodes rescaled that start in [lo, mid) within [lo, hi). */
  ghost predicate HalvedPart(s0: seq<Symbol>, s: seq<Symbol>, g: seq<Info>, c: int, lo: int, mid: int, hi: int) {
    && |s| == |s0| && 0 <= c < |g| <= |s|
    && forall i :: 0 <= i < |s| ==>
      if Inside(g, c, lo, hi, i) && g[i].lo < mid then HalvedNode(s0, s, g, c, i) else s[i] == s0[i]
  }

  ghost function CountHalved(g: seq<Info>, c: int): seq<Info>
    requires 0 <= c < |g|
  {
    g[c := g[c].(freq := Halve(g[c].freq))]
  }

  /** One turn of the rescaling loop, from s to s4: cur's count, then its left part, then its sum.
      base has the shape that the trees had before any rescaling. */
  lemma HalveTurn(base: seq<Symbol>, s0: seq<Symbol>, s: seq<Symbol>, s2: seq<Symbol>, s3: seq<Symbol>, s4: seq<Symbol>,
                  g: seq<Info>, c: int, lo: int, hi: int, cur: int)
    requires Trees(base, g) && SameShape(base, s0, g, g) && 0 <= c < |g| && 1 <= cur < |g|
    requires HalvedPart(s0, s, g, c, lo, g[cur].lo, hi)
    requires g[cur].own == c && lo <= g[cur].lo && g[cur].hi == hi
    requires |s2| == |s0| && s2 == s[cur := s2[cur]] && s2[cur].value == s0[cur].value
    requires if s0[cur].left != 0 then HalvedPart(s2, s3, g, c, g[cur].lo, s0[cur].value, s0[cur].value) else s3 == s2
    requires |s4| == |s0| == |s3| && s4 == s3[cur := s4[cur]] && HalvedNode(s0, s4, g, c, cur)
    ensures HalvedPart(s0, s4, g, c, lo, s0[cur].value + 1, hi)
  {
    hide Sum, Prefix, EntryOk, RootOk;
    assert NodeOk(base, g, cur);
    forall i | 0 <= i < |s0| && i != cur
      ensures if Inside(g, c, lo, hi, i) && g[i].lo < s0[cur].value + 1 then HalvedNode(s0, s4, g, c, i) else s4[i] == s0[i]
    {
      if Inside(g, c, lo, hi, i) {
        assert NodeOk(base, g, i);
        if i < cur {
          assert Placed(base, g, i, cur);
        } else {
          assert Placed(base, g, cur, i);
        }
      }
    }
  }

  /** What the rescaling loop has not reached is as it was, and the shape is as it was everywhere. */
  lemma HalvingAhead(base: seq<Symbol>, s0: seq<Symbol>, s: seq<Symbol>, s2: seq<Symbol>, g: seq<Info>, c: int,
                     lo: int, hi: int, cur: int)
    requires SameShape(base, s0, g, g) && 0 <= c < |g| && 1 <= cur < |g| && g[cur].own == c && lo <= g[cur].lo && g[cur].hi == hi
    requires forall i :: Inside(g, c, lo, hi, i) ==> i < |base| && s0[i] == base[i]
    requires HalvedPart(s0, s, g, c, lo, g[cur].lo, hi)
    requires |s2| == |s| && s2 == s[cur := s2[cur]]
    requires s2[cur].value == s[cur].value && s2[cur].left == s[cur].left
      && s2[cur].right == s[cur].right && s2[cur].symbols == s[cur].symbols
    ensures base[cur] == s0[cur] == s[cur]
    ensures SameShape(base, s2, g, g)
    ensures forall i, mid :: mid < hi && Inside(g, c, g[cur].lo, mid, i) ==> i < |base| && s2[i] == base[i]
  {
    assert Inside(g, c, lo, hi, cur);
  }

  lemma HalvingBegins(s: seq<Symbol>, g: seq<Info>, c: int, lo: int, hi: int)
    requires 0 <= c < |g| <= |s|
    ensures HalvedPart(s, s, g, c, lo, lo, hi)
  {
  }

  lemma HalvedOutside(s0: seq<Symbol>, s: seq<Symbol>, g: seq<Info>, c: int, lo: int, hi: int, node: int)
    requires HalvedPart(s0, s, g, c, lo, hi, hi) && 0 <= node < |g| && hi < g[node].hi
    ensures s[node] == s0[node]
  {
  }

  /** Past the last node of the right edge nothing is left to do. */
  lemma HalvedAll(s0: seq<Symbol>, s: seq<Symbol>, g: seq<Info>, c: int, lo: int, hi: int, cur: int, base: seq<Symbol>)
    requires Trees(base, g) && 1 <= cur < |g| && g[cur].own == c && g[cur].hi == hi && base[cur].right == 0
    requires HalvedPart(s0, s, g, c, lo, base[cur].value + 1, hi)
    ensures HalvedPart(s0, s, g, c, lo, hi, hi)
  {
    assert NodeOk(base, g, cur);
    forall i | Inside(g, c, lo, hi, i) ensures g[i].lo < base[cur].value + 1 {
      assert NodeOk(base, g, i);
      if cur < i {
        assert Placed(base, g, cur, i);
      } else if i < cur {
        assert Placed(base, g, i, cur);
      }
    }
    assert forall i :: Inside(g, c, lo, hi, i) ==> g[i].lo < hi;
  }

  lemma Children(s: seq<Symbol>, g: seq<Info>, node: int)
    requires Trees(s, g) && 1 <= node < |g|
    ensures s[node].left != 0 ==> ChildOk(g, node, node + s[node].left, g[node].lo, s[node].value)
    ensures s[node].right != 0 ==> ChildOk(g, node, node + s[node].right, s[node].value + 1, g[node].hi)
  {
    assert NodeOk(s, g, node);
  }

  /** The sum that the rescaling loop stores in cur. */
  lemma HalvedSum(base: seq<Symbol>, g: seq<Info>, c: int, cur: int)
    requires Trees(base, g) && 0 <= c < |g| && 1 <= cur < |g| && g[cur].own == c
    ensures g[cur].lo <= base[cur].value < g[cur].hi <= 256
    ensures base[cur].count - base[cur].count / 2 == Halve(g[c].freq)[base[cur].value]
    ensures base[cur].left == 0 ==> Sum(Halve(g[c].freq), g[cur].lo, base[cur].value) == 0
    ensures base[cur].right == 0 ==> Sum(Halve(g[c].freq), base[cur].value + 1, g[cur].hi) == 0
  {
    assert NodeOk(base, g, cur);
    SlotAt(base, g, c, cur);
    var f := Halve(g[c].freq);
    if base[cur].left == 0 {
      GapIsEmpty(base, g, c, cur, g[cur].lo, base[cur].value);
      SumZero(f, g[cur].lo, base[cur].value);
    }
    if base[cur].right == 0 {
      GapIsEmpty(base, g, c, cur, base[cur].value + 1, g[cur].hi);
      SumZero(f, base[cur].value + 1, g[cur].hi);
    }
  }

  /** Before the first turn, seen from the root of the tree. */
  lemma HalvingAtRoot(s: seq<Symbol>, g: seq<Info>, c: int)
    requires Trees(s, g) && 0 <= c < |g|
    ensures SameShape(s, s, g, g)
    ensures if s[c].symbols != 0 then
        var r := c + s[c].symbols; 1 <= r < |g| && g[r].own == c && g[r].lo == 0 && g[r].hi == 256
      else HalvedPart(s, s, g, c, 0, 256, 256) && Mass(Halve(g[c].freq)) == 0
  {
    assert RootOk(s, g, c);
    if s[c].symbols == 0 {
      GapIsEmpty(s, g, c, c, 0, 256);
      SumZero(Halve(g[c].freq), 0, 256);
      forall i | 1 <= i < |g| ensures g[i].own != c {
        assert NodeOk(s, g, i);
      }
    }
  }

  lemma Halving(s0: seq<Symbol>, s1: seq<Symbol>, g: seq<Info>, c: int)
    requires Trees(s0, g) && 0 <= c < |g| && HalvedPart(s0, s1, g, c, 0, 256, 256)
    ensures Trees(s1, CountHalved(g, c))
    ensures forall i :: 0 <= i < |s0| ==>
      && s1[i].value == s0[i].value && s1[i].symbols == s0[i].symbols
      && s1[i].escapes == s0[i].escapes && s1[i].total == s0[i].total && s1[i].parent == s0[i].parent
  {
    var g1 := CountHalved(g, c);
    PositiveCounts(s0, g);
    ShapeKept(s0, s1, g, g1);
    forall i | 1 <= i < |g1| ensures Prefix(s1, g1, i) {
      assert NodeOk(s0, g, i) && Prefix(s0, g, i);
    }
    forall d, u | 0 <= d < |g1| && 0 <= u < 256 ensures EntryOk(s1, g1, d, u) {
      assert EntryOk(s0, g, d, u);
      var i := g[d].at[u];
      if i != 0 {
        assert NodeOk(s0, g, i);
      }
    }
  }

  // ---- what a caller of the tree operations sees

  /** v was counted in context c, in the node symbol, which is new iff v was not there; and symbol
      was made the parent of link, unless that is 0. No other context changed. */
  ghost predicate Counted(s0: seq<Symbol>, s1: seq<Symbol>, g0: seq<Info>, g1: seq<Info>, c: int, v: byte,
                          update: nat, symbol: int, link: int)
  {
    && 0 <= c < |g0| <= |s0| == |s1| && |g1| <= |s1|
    && |g1| == (if g0[c].freq[v] == 0 then |g0| + 1 else |g0|)
    && 1 <= symbol < |g1| && (symbol < |g0| <==> 0 < g0[c].freq[v])
    && (forall i :: 0 <= i < |g0| ==>
      && g1[i].own == g0[i].own
      && g1[i].freq == (if i == c then g0[c].freq[v := g0[c].freq[v] + update] else g0[i].freq)
      && s1[i].value == s0[i].value && s1[i].escapes == s0[i].escapes && s1[i].total == s0[i].total
      && s1[i].parent == (if i == link != 0 then symbol else s0[i].parent))
    && g1[symbol].own == c && s1[symbol].value == v
    && (symbol == |g0| ==>
      g1[symbol].freq == Zeros() && s1[symbol].escapes == 0 && s1[symbol].total == 0 && s1[symbol].parent == 0)
  }

  lemma CountedSizes(s0: seq<Symbol>, s1: seq<Symbol>, g0: seq<Info>, g1: seq<Info>, c: int, v: byte,
                     update: nat, symbol: int, link: int)
    requires Counted(s0, s1, g0, g1, c, v, update, symbol, link)
    ensures 0 <= c < |g0| <= |s0| == |s1| && |g0| <= |g1| <= |g0| + 1 && 1 <= symbol < |g1| <= |s1|
    ensures s1[c].escapes == s0[c].escapes && s1[c].total == s0[c].total
  {
  }

  lemma NewIsCounted(s0: seq<Symbol>, s: seq<Symbol>, s1: seq<Symbol>, g: seq<Info>, c: int, v: byte, node: int,
                     side: Side, lo: nat, hi: nat, update: nat)
    requires 0 <= c < |g| <= |s0| && g[c].freq[v] == 0
    requires Walked(s0, s, g, c, v, |g|, update) && Attached(s, s1, |g|, v, node, side, update)
    ensures Counted(s0, s1, g, CountNew(g, c, v, lo, hi, update), c, v, update, |g|, 0)
  {
    hide Sum;
  }

  /** Writing a context's own fields leaves every tree as it is. */
  lemma ContextWritten(s: seq<Symbol>, s1: seq<Symbol>, g: seq<Info>, c: int)
    requires Trees(s, g) && 0 <= c < |s| == |s1|
    requires s1 == s[c := s[c].(escapes := s1[c].escapes, total := s1[c].total, parent := s1[c].parent)]
    ensures Trees(s1, g)
  {
    PositiveCounts(s, g);
    ShapeKept(s, s1, g, g);
    forall i | 1 <= i < |g| ensures Prefix(s1, g, i) {
      assert Prefix(s, g, i);
    }
    forall d, u | 0 <= d < |g| && 0 <= u < 256 ensures EntryOk(s1, g, d, u) {
      assert EntryOk(s, g, d, u);
    }
  }

  /** A single entry is a context without symbols. */
  lemma SingleRoot(s: seq<Symbol>)
    requires 1 <= |s| && s[0].symbols == 0
    ensures Trees(s, [Info(0, 0, 0, Zeros(), Zeros())])
  {
    var g := [Info(0, 0, 0, Zeros(), Zeros())];
    assert RootOk(s, g, 0);
    forall c, v | 0 <= c < |g| && 0 <= v < 256 ensures EntryOk(s, g, c, v) {
    }
  }
}
