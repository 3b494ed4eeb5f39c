/** How the symbol array represents the order-2 model: each entry is a history, and the entry's
    context fields are the model's table for that history. The encoder and the decoder allocate
    entries in different orders; both represent the same model. */
module PpmLinks {
  import opened Words
  import opened Frequencies
  import opened PpmModel
  import opened SymbolTrees

  /** The history of every entry, and the entry of every history. */
  datatype Names = Names(of: seq<History>, at: map<History, nat>)

  ghost predicate NamesOk(s: seq<Symbol>, g: seq<Info>, n: Names) {
    && 1 <= |g| == |n.of| && |g| <= |s| && n.of[0] == []
    && (forall i :: 0 <= i < |g| ==> |n.of[i]| <= ORDER + 1 && n.of[i] in n.at && n.at[n.of[i]] == i)
    && (forall h <- n.at :: n.at[h] < |g| && n.of[n.at[h]] == h)
    && (forall i :: 1 <= i < |g| ==> g[i].own < i && n.of[i] == n.of[g[i].own] + [s[i].value])
  }

  /** Entry c holds the model's table for its history. */
  ghost predicate Holds(a: Symbol, i: Info, h: History, t: Context) {
    && i.freq == t.freq
    && a.escapes == t.escapes
    && a.total == Total(t, Minimum(h))
  }

  ghost predicate ContextsOk(s: seq<Symbol>, g: seq<Info>, n: Names, m: Model) {
    && |g| <= |s| && |g| <= |n.of|
    && (forall c :: 0 <= c < |g| ==> Holds(s[c], g[c], n.of[c], ContextAt(m, n.of[c])))
    && (forall h <- m.contexts :: h in n.at)
  }

  /** The parent of an entry is the entry of its history without the oldest byte; pending (0: none)
      is an entry whose parent is still to be written. */
  ghost predicate ParentsOk(s: seq<Symbol>, n: Names, pending: nat) {
    && |n.of| <= |s|
    && forall i :: 1 <= i < |n.of| && i != pending ==> ParentOk(s, n, i)
  }

  ghost predicate ParentOk(s: seq<Symbol>, n: Names, i: int)
    requires 0 <= i < |n.of| <= |s|
  {
    n.of[i] != [] && s[i].parent < |n.of| && n.of[s[i].parent] == n.of[i][1..]
  }

  ghost predicate Represents(s: seq<Symbol>, g: seq<Info>, n: Names, m: Model, pending: nat) {
    NamesOk(s, g, n) && ContextsOk(s, g, n, m) && ParentsOk(s, n, pending) && TablesOk(m) && m.nextSymbol == |g|
  }

  /** Context c has learnt v: Counted, and then its escapes and total brought up to date. */
  ghost predicate Learned(s0: seq<Symbol>, s1: seq<Symbol>, g0: seq<Info>, g1: seq<Info>, c: int, h: History, t: Context,
                          v: byte, symbol: int, link: int)
  {
    && 0 <= c < |g0| <= |s0| == |s1| && |g1| <= |s1|
    && |g1| == (if t.freq[v] == 0 then |g0| + 1 else |g0|)
    && 1 <= symbol < |g1| && (symbol < |g0| <==> 0 < t.freq[v])
    && (forall i :: 0 <= i < |g0| ==>
      && g1[i].own == g0[i].own && s1[i].value == s0[i].value
      && s1[i].parent == (if i == link != 0 then symbol else s0[i].parent))
    && (forall i :: 0 <= i < |g0| && i != c ==>
      g1[i].freq == g0[i].freq && s1[i].escapes == s0[i].escapes && s1[i].total == s0[i].total)
    && Holds(s1[c], g1[c], h, Bump(h, t, v))
    && g1[symbol].own == c && s1[symbol].value == v
    && (symbol == |g0| ==>
      g1[symbol].freq == Zeros() && s1[symbol].escapes == 0 && s1[symbol].total == 0 && s1[symbol].parent == 0)
  }

  ghost function NamesAfter(n: Names, h: History, v: byte, symbol: nat): Names {
    if symbol == |n.of| then Names(n.of + [h + [v]], n.at[h + [v] := symbol]) else n
  }

  /** A history that has a node in its context's tree has an entry, and only then. */
  lemma SymbolName(s: seq<Symbol>, g: seq<Info>, n: Names, c: int, v: byte)
    requires Trees(s, g) && NamesOk(s, g, n) && 0 <= c < |g|
    ensures n.of[c] + [v] in n.at <==> 0 < g[c].freq[v]
    ensures 0 < g[c].freq[v] ==> var i := n.at[n.of[c] + [v]]; 1 <= i && g[i].own == c && s[i].value == v
  {
    assert EntryOk(s, g, c, v);
    var h := n.of[c] + [v];
    if h in n.at {
      var i := n.at[h];
      assert i != 0;
      assert NodeOk(s, g, i);
      var o := g[i].own;
      assert n.of[o] == h[..|h| - 1] == n.of[c] && s[i].value == h[|h| - 1];
      assert o == c;
      assert EntryOk(s, g, c, v);
    }
  }

  lemma NamesKept(s0: seq<Symbol>, s1: seq<Symbol>, g0: seq<Info>, g1: seq<Info>, n: Names, c: int, t: Context,
                  v: byte, symbol: int, link: int)
    requires Trees(s0, g0) && NamesOk(s0, g0, n) && 0 <= c < |g0| && |n.of[c]| <= ORDER && t.freq == g0[c].freq
    requires Trees(s1, g1) && Learned(s0, s1, g0, g1, c, n.of[c], t, v, symbol, link)
    ensures NamesOk(s1, g1, NamesAfter(n, n.of[c], v, symbol))
    ensures NamesAfter(n, n.of[c], v, symbol).of[symbol] == n.of[c] + [v]
  {
    hide Trees, Holds, Bump;
    SymbolName(s0, g0, n, c, v);
  }

  lemma ContextsKept(s0: seq<Symbol>, s1: seq<Symbol>, g0: seq<Info>, g1: seq<Info>, n: Names, m: Model, c: int,
                     v: byte, symbol: int, link: int)
    requires Trees(s0, g0) && NamesOk(s0, g0, n) && ContextsOk(s0, g0, n, m) && 0 <= c < |g0|
    requires Learned(s0, s1, g0, g1, c, n.of[c], ContextAt(m, n.of[c]), v, symbol, link)
    ensures ContextsOk(s1, g1, NamesAfter(n, n.of[c], v, symbol), Learn(m, n.of[c], v))
  {
    hide Trees, Bump, Holds, Fresh, Total, Zeros;
    var n1, m1 := NamesAfter(n, n.of[c], v, symbol), Learn(m, n.of[c], v);
    SymbolName(s0, g0, n, c, v);
    assert forall h <- m1.contexts :: h == n.of[c] || h in m.contexts;
    forall i | 0 <= i < |g1| ensures Holds(s1[i], g1[i], n1.of[i], ContextAt(m1, n1.of[i])) {
      EntryKept(s0, s1, g0, g1, n, m, c, v, symbol, link, i);
    }
  }

  lemma EntryKept(s0: seq<Symbol>, s1: seq<Symbol>, g0: seq<Info>, g1: seq<Info>, n: Names, m: Model, c: int,
                  v: byte, symbol: int, link: int, i: int)
    requires NamesOk(s0, g0, n) && ContextsOk(s0, g0, n, m) && 0 <= c < |g0| && 0 <= i < |g1|
    requires n.of[c] + [v] in n.at <==> 0 < g0[c].freq[v]
    requires Learned(s0, s1, g0, g1, c, n.of[c], ContextAt(m, n.of[c]), v, symbol, link)
    ensures Holds(s1[i], g1[i], NamesAfter(n, n.of[c], v, symbol).of[i],
                  ContextAt(Learn(m, n.of[c], v), NamesAfter(n, n.of[c], v, symbol).of[i]))
  {
    hide *;
    if i == c {
      LearnedEntryHolds(s0, s1, g0, g1, n, m, c, v, symbol, link);
    } else if i < |g0| {
      OldEntryHolds(s0, s1, g0, g1, n, m, c, v, symbol, link, i);
    } else {
      NewEntryHolds(s0, s1, g0, g1, n, m, c, v, symbol, link, i);
    }
  }

  lemma LearnedEntryHolds(s0: seq<Symbol>, s1: seq<Symbol>, g0: seq<Info>, g1: seq<Info>, n: Names, m: Model, c: int,
                          v: byte, symbol: int, link: int)
    requires NamesOk(s0, g0, n) && 0 <= c < |g0|
    requires Learned(s0, s1, g0, g1, c, n.of[c], ContextAt(m, n.of[c]), v, symbol, link)
    ensures var k := NamesAfter(n, n.of[c], v, symbol).of[c];
      Holds(s1[c], g1[c], k, ContextAt(Learn(m, n.of[c], v), k))
  {
    hide Bump, Holds, Total, Zeros;
    assert ContextAt(Learn(m, n.of[c], v), n.of[c]) == Bump(n.of[c], ContextAt(m, n.of[c]), v);
  }

  lemma OldEntryHolds(s0: seq<Symbol>, s1: seq<Symbol>, g0: seq<Info>, g1: seq<Info>, n: Names, m: Model, c: int,
                      v: byte, symbol: int, link: int, i: int)
    requires NamesOk(s0, g0, n) && ContextsOk(s0, g0, n, m) && 0 <= c < |g0| && 0 <= i < |g0| && i != c
    requires Learned(s0, s1, g0, g1, c, n.of[c], ContextAt(m, n.of[c]), v, symbol, link)
    ensures var k := NamesAfter(n, n.of[c], v, symbol).of[i];
      i < |g1| && Holds(s1[i], g1[i], k, ContextAt(Learn(m, n.of[c], v), k))
  {
    hide Bump, Holds, Fresh, Total, Learn, Minimum, Zeros, ContextAt;
    assert n.of[i] != n.of[c];
    OldHolds(s0[i], s1[i], g0[i], g1[i], n.of[i], m, n.of[c], v);
  }

  lemma NewEntryHolds(s0: seq<Symbol>, s1: seq<Symbol>, g0: seq<Info>, g1: seq<Info>, n: Names, m: Model, c: int,
                      v: byte, symbol: int, link: int, i: int)
    requires NamesOk(s0, g0, n) && ContextsOk(s0, g0, n, m) && 0 <= c < |g0| && |g0| <= i < |g1|
    requires n.of[c] + [v] in n.at <==> 0 < g0[c].freq[v]
    requires Learned(s0, s1, g0, g1, c, n.of[c], ContextAt(m, n.of[c]), v, symbol, link)
    ensures var k := NamesAfter(n, n.of[c], v, symbol).of[i];
      Holds(s1[i], g1[i], k, ContextAt(Learn(m, n.of[c], v), k))
  {
    hide Bump, Fresh, Total, Learn, Minimum, Zeros, ContextAt;
    assert Holds(s0[c], g0[c], n.of[c], ContextAt(m, n.of[c]));
    NewHolds(s1[i], g1[i], m, n.of[c], v);
  }

  lemma OldHolds(a: Symbol, b: Symbol, i: Info, j: Info, k: History, m: Model, h: History, v: byte)
    requires k != h && Holds(a, i, k, ContextAt(m, k))
    requires j.freq == i.freq && b.escapes == a.escapes && b.total == a.total
    ensures Holds(b, j, k, ContextAt(Learn(m, h, v), k))
  {
    hide Bump;
    assert ContextAt(Learn(m, h, v), k) == ContextAt(m, k);
  }

  lemma NewHolds(b: Symbol, j: Info, m: Model, h: History, v: byte)
    requires h + [v] !in m.contexts
    requires j.freq == Zeros() && b.escapes == 0 && b.total == 0
    ensures Holds(b, j, h + [v], ContextAt(Learn(m, h, v), h + [v]))
  {
    hide Bump, Total, Zeros;
    assert h + [v] != h && h + [v] != [];
    assert ContextAt(Learn(m, h, v), h + [v]) == Fresh();
    FreshTotal();
  }

  lemma FreshTotal()
    ensures Total(Fresh(), 0) == 0
  {
    hide Zeros, Mass;
    ZerosMass();
  }

  lemma ParentsKept(s0: seq<Symbol>, s1: seq<Symbol>, g0: seq<Info>, g1: seq<Info>, n: Names, m: Model, c: int,
                    v: byte, symbol: int, link: int, pending: nat)
    requires NamesOk(s0, g0, n) && ContextsOk(s0, g0, n, m) && ParentsOk(s0, n, pending) && 0 <= c < |g0|
    requires Learned(s0, s1, g0, g1, c, n.of[c], ContextAt(m, n.of[c]), v, symbol, link)
    requires NamesAfter(n, n.of[c], v, symbol).of[symbol] == n.of[c] + [v]
    requires link == 0 || (1 <= link < |g0| && n.of[link] != [] && n.of[link][1..] == n.of[c] + [v])
    requires pending == 0 || pending == link
    ensures ParentsOk(s1, NamesAfter(n, n.of[c], v, symbol), if symbol == |g0| && n.of[c] != [] then symbol else 0)
  {
    hide Bump, Total, Holds, Minimum, ContextAt, Zeros;
    var h, n1 := n.of[c], NamesAfter(n, n.of[c], v, symbol);
    forall i | 1 <= i < |n1.of| && (i != symbol || symbol < |g0| || h == []) ensures ParentOk(s1, n1, i) {
      if i < |g0| && i != link {
        assert ParentOk(s0, n, i);
      }
    }
  }

  lemma LearnedSize(m: Model, h: History, v: byte)
    ensures Learn(m, h, v).nextSymbol == (if ContextAt(m, h).freq[v] == 0 then m.nextSymbol + 1 else m.nextSymbol)
  {
    hide Bump, ContextAt;
  }

  lemma TableOf(s: seq<Symbol>, g: seq<Info>, n: Names, m: Model, c: int)
    requires ContextsOk(s, g, n, m) && 0 <= c < |g|
    ensures ContextAt(m, n.of[c]).freq == g[c].freq
  {
    hide Total, ContextAt, Minimum;
    assert Holds(s[c], g[c], n.of[c], ContextAt(m, n.of[c]));
  }

  /** The array after a context has learnt a value represents the model that has learnt it. */
  lemma LearningRepresented(s0: seq<Symbol>, s1: seq<Symbol>, g0: seq<Info>, g1: seq<Info>, n: Names, m: Model, c: int,
                            v: byte, symbol: nat, link: int, pending: nat)
    requires Trees(s0, g0) && Represents(s0, g0, n, m, pending) && Trees(s1, g1)
    requires 0 <= c < |g0| && |n.of[c]| <= ORDER
    requires Learned(s0, s1, g0, g1, c, n.of[c], ContextAt(m, n.of[c]), v, symbol, link)
    requires link == 0 || (1 <= link < |g0| && n.of[link] != [] && n.of[link][1..] == n.of[c] + [v])
    requires pending == 0 || pending == link
    ensures Represents(s1, g1, NamesAfter(n, n.of[c], v, symbol), Learn(m, n.of[c], v),
                       if symbol == |g0| && n.of[c] != [] then symbol else 0)
    ensures LearnedIn(n, m, NamesAfter(n, n.of[c], v, symbol), Learn(m, n.of[c], v), c, v, symbol)
  {
    hide Trees, Bump, Total, TablesOk, NamesOk, ContextsOk, ParentsOk, Learn, Holds, ContextAt;
    Sizes(s0, g0, n, m, pending);
    var h, t := n.of[c], ContextAt(m, n.of[c]);
    TableOf(s0, g0, n, m, c);
    LearnedSize(m, h, v);
    NamesKept(s0, s1, g0, g1, n, c, t, v, symbol, link);
    ContextsKept(s0, s1, g0, g1, n, m, c, v, symbol, link);
    ParentsKept(s0, s1, g0, g1, n, m, c, v, symbol, link, pending);
    LearnKeepsTables(m, h, v);
  }

  /** A context's own fields after a value was counted in it, and after it was rescaled besides. */
  lemma CountedThenLearned(s0: seq<Symbol>, s1: seq<Symbol>, s2: seq<Symbol>, g0: seq<Info>, g1: seq<Info>, g2: seq<Info>,
                           c: int, h: History, t: Context, v: byte, symbol: int, link: int)
    requires Counted(s0, s1, g0, g1, c, v, Delta(h), symbol, link) && Holds(s0[c], g0[c], h, t)
    requires |s2| == |s1| && |g2| == |g1|
    requires forall i :: 0 <= i < |s1| ==>
      && s2[i].value == s1[i].value && s2[i].parent == s1[i].parent
      && (i != c ==> s2[i].escapes == s1[i].escapes && s2[i].total == s1[i].total)
    requires forall i :: 0 <= i < |g1| ==> g2[i].own == g1[i].own && (i != c ==> g2[i].freq == g1[i].freq)
    requires var d := AddSymbol(h, t, v); Holds(s2[c], g2[c], h, if Overdue(h, t.freq[v], d) then Rescale(d) else d)
    ensures Learned(s0, s2, g0, g2, c, h, t, v, symbol, link)
  {
    hide Total, AddSymbol, Rescale, Overdue;
  }

  /** The entry waiting for its parent, if any, waits for the entry of h + [v]. */
  ghost predicate LinkOk(n: Names, h: History, v: byte, link: nat, pending: nat) {
    && (link == 0 || (link < |n.of| && n.of[link] != [] && n.of[link][1..] == h + [v]))
    && (pending == 0 || pending == link)
  }

  ghost function PendingAfter(n: Names, h: History, symbol: nat): nat {
    if symbol == |n.of| && h != [] then symbol else 0
  }

  /** The walk begins at the entry of the whole history, with nothing to link. */
  lemma StartWalk(s: seq<Symbol>, g: seq<Info>, n: Names, m: Model, h: History, v: byte, c: nat)
    requires Represents(s, g, n, m, 0) && c < |n.of| && n.of[c] == h
    ensures LinkOk(n, h, v, 0, 0) && (h == [] <==> c == 0)
  {
    hide TablesOk;
  }

  /** From one context of the walk to the next shorter one, over the entry's parent. */
  lemma WalkStep(n: Names, m: Model, s: seq<Symbol>, g: seq<Info>, n': Names, m': Model, h: History, v: byte, c: nat,
                 symbol: nat)
    requires c < |n.of| && n.of[c] == h && h != [] && LearnedIn(n, m, n', m', c, v, symbol)
    requires Represents(s, g, n', m', PendingAfter(n, h, symbol))
    ensures c < |s| && s[c].parent < |g| == |n'.of| && n'.of[s[c].parent] == h[1..]
    ensures h[1..] == [] <==> s[c].parent == 0
    ensures LinkOk(n', h[1..], v, symbol, PendingAfter(n, h, symbol))
  {
    hide Learn, TablesOk, ContextsOk;
    ParentEntry(s, g, n', m', PendingAfter(n, h, symbol), c);
    assert (h + [v])[1..] == h[1..] + [v];
  }

  lemma LearnedKeeps(n: Names, m: Model, n': Names, m': Model, c: nat, v: byte, symbol: nat)
    requires LearnedIn(n, m, n', m', c, v, symbol)
    ensures |n.of| <= |n'.of| <= |n.of| + 1 && m'.history == m.history && m' == Learn(m, n.of[c], v)
    ensures symbol < |n'.of| && n'.of[symbol] == n.of[c] + [v]
    ensures forall i :: 0 <= i < |n.of| ==> n'.of[i] == n.of[i]
  {
  }

  /** A value that its context knew already leaves no entry waiting. */
  lemma KnownIsDone(n: Names, m: Model, n': Names, m': Model, c: nat, h: History, v: byte, symbol: nat)
    requires LearnedIn(n, m, n', m', c, v, symbol) && n.of[c] == h && Knows(h, ContextAt(m, h), v)
    ensures PendingAfter(n, h, symbol) == 0
  {
  }

  lemma ContextFields(s: seq<Symbol>, g: seq<Info>, n: Names, m: Model, pending: nat, c: nat)
    requires Represents(s, g, n, m, pending) && c < |g|
    ensures c < |s| && |g| == |n.of| && Holds(s[c], g[c], n.of[c], ContextAt(m, n.of[c]))
  {
    hide TablesOk, Holds;
  }

  lemma NothingToLink(n: Names, h: History, v: byte)
    ensures LinkOk(n, h, v, 0, 0)
  {
  }

  lemma BelowAll(h: History, t: Context)
    ensures Total(t, Minimum(h)) == t.escapes + Below(t.freq, Minimum(h), 256)
  {
  }

  lemma SameEntry(s: seq<Symbol>, g: seq<Info>, n: Names, m: Model, pending: nat, c: nat, d: nat)
    requires Represents(s, g, n, m, pending) && c < |n.of| && d < |n.of|
    ensures c == d <==> n.of[c] == n.of[d]
  {
    hide TablesOk;
  }

  /** The entry that waits gets its parent at last. */
  lemma LinkPatched(s: seq<Symbol>, g: seq<Info>, n: Names, m: Model, h: History, v: byte, link: nat, pending: nat,
                    bottom: nat)
    requires Trees(s, g) && Represents(s, g, n, m, pending) && LinkOk(n, h, v, link, pending) && link != 0
    requires bottom < |n.of| && n.of[bottom] == h + [v] && |s| <= 0x1_0000
    ensures link < |s| && var s1 := s[link := s[link].(parent := bottom)];
      Trees(s1, g) && Represents(s1, g, n, m, 0)
  {
    var s1 := s[link := s[link].(parent := bottom)];
    ContextWritten(s, s1, g, link);
    hide TablesOk, Trees;
    forall c | 0 <= c < |g| ensures Holds(s1[c], g[c], n.of[c], ContextAt(m, n.of[c])) {
      assert Holds(s[c], g[c], n.of[c], ContextAt(m, n.of[c]));
    }
    forall i | 1 <= i < |n.of| ensures ParentOk(s1, n, i) {
      assert i != link ==> ParentOk(s, n, i);
    }
  }

  lemma LinkBounds(n: Names, h: History, v: byte, link: nat, pending: nat)
    requires LinkOk(n, h, v, link, pending) && 1 <= |n.of|
    ensures link < |n.of| && (link == 0 ==> pending == 0)
  {
  }

  lemma ParentEntry(s: seq<Symbol>, g: seq<Info>, n: Names, m: Model, pending: nat, i: nat)
    requires Represents(s, g, n, m, pending) && i < |g| && (pending == 0 || i != pending) && n.of[i] != []
    ensures i < |s| && s[i].parent < |g| == |n.of| && n.of[s[i].parent] == n.of[i][1..]
  {
    assert ParentOk(s, n, i);
  }

  /** The root alone represents the empty model. */
  lemma RootRepresents(s: seq<Symbol>)
    requires 1 <= |s| && s[0].escapes == ESCAPE_MINIMUM && s[0].total == ESCAPE_MINIMUM + 256 * SYMBOL_MINIMUM
    ensures Represents(s, [Info(0, 0, 0, Zeros(), Zeros())], Names([[]], map[[] := 0]), Empty(), 0)
  {
    hide Holds, Zeros, Empty, TablesOk;
    RootHolds(s[0]);
    EmptyValid();
  }

  lemma RootHolds(a: Symbol)
    requires a.escapes == ESCAPE_MINIMUM && a.total == ESCAPE_MINIMUM + 256 * SYMBOL_MINIMUM
    ensures Holds(a, Info(0, 0, 0, Zeros(), Zeros()), [], ContextAt(Empty(), []))
    ensures Empty().contexts.Keys == {[]} && Empty().nextSymbol == 1
  {
    hide Zeros, Mass;
    ZerosMass();
    assert ContextAt(Empty(), []) == Context(ESCAPE_MINIMUM, Zeros());
  }

  lemma HistoryMoved(s: seq<Symbol>, g: seq<Info>, n: Names, m: Model, h: History)
    requires Represents(s, g, n, m, 0)
    ensures Represents(s, g, n, m.(history := h), 0)
  {
    hide Holds;
    assert forall k :: ContextAt(m.(history := h), k) == ContextAt(m, k);
  }

  lemma Sizes(s: seq<Symbol>, g: seq<Info>, n: Names, m: Model, pending: nat)
    requires Represents(s, g, n, m, pending)
    ensures 1 <= |g| == |n.of| == m.nextSymbol <= |s| && TablesOk(m) && n.of[0] == []
  {
    hide TablesOk;
  }

  lemma ParentWritten(s0: seq<Symbol>, s1: seq<Symbol>, s2: seq<Symbol>, g0: seq<Info>, g1: seq<Info>, c: int, v: byte,
                      update: nat, symbol: uint16, link: nat)
    requires Trees(s1, g1) && Counted(s0, s1, g0, g1, c, v, update, symbol, 0) && link < |g0|
    requires s2 == if link == 0 then s1 else s1[link := s1[link].(parent := symbol)]
    ensures Trees(s2, g1) && Counted(s0, s2, g0, g1, c, v, update, symbol, link)
  {
    if link != 0 {
      ContextWritten(s1, s2, g1, link);
    }
  }

  /** Names and model before and after v was learnt in context c. */
  ghost predicate LearnedIn(n0: Names, m0: Model, n1: Names, m1: Model, c: int, v: byte, symbol: int) {
    && 0 <= c < |n0.of| <= |n1.of| <= |n0.of| + 1 && 0 <= symbol < |n1.of|
    && m1 == Learn(m0, n0.of[c], v) && n1 == NamesAfter(n0, n0.of[c], v, symbol)
    && n1.of[symbol] == n0.of[c] + [v]
    && (symbol < |n0.of| <==> 0 < ContextAt(m0, n0.of[c]).freq[v])
  }
}
