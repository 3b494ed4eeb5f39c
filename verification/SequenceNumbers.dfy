/** ENet's 16-bit sequence numbers and their windows, and what they mean for the unbounded numbers
    that a run of the protocol really counts. */
module SequenceNumbers {
  import opened Words

  const SPACE := 0x1_0000
  const WINDOWS := 16
  const WINDOW_SIZE := 0x1000
  const FREE_WINDOWS := 8

  /** The number on the wire, and the unbounded window. */
  function Num(i: nat): (n: uint16) { i % SPACE }

  function Win(i: nat): nat { i / WINDOW_SIZE }

  /** The window of n, a whole turn later if n is numerically behind the channel's number. */
  function RelativeWindow(n: uint16, incoming: uint16): nat {
    n / WINDOW_SIZE + if n < incoming then WINDOWS else 0
  }

  /** The windows in which a channel takes commands in. */
  predicate InWindow(n: uint16, incoming: uint16) {
    var current := incoming / WINDOW_SIZE;
    current <= RelativeWindow(n, incoming) < current + FREE_WINDOWS - 1
  }

  /** enet_peer_queue_acknowledgement: a command in the two windows behind those is never acknowledged. */
  predicate Acknowledged(n: uint16, incoming: uint16) {
    var current := incoming / WINDOW_SIZE;
    !(current + FREE_WINDOWS - 1 <= RelativeWindow(n, incoming) <= current + FREE_WINDOWS)
  }

  /** How far n lies ahead of incoming, modulo the number space. */
  function Ahead(n: uint16, incoming: uint16): nat {
    if n >= incoming then n - incoming else n + SPACE - incoming
  }

  /** The two tests in the numbers of ENet: 16 windows of 4096 numbers. */
  lemma TestsInNumbers(n: uint16, incoming: uint16)
    ensures var d := (n / 4096 - incoming / 4096) % 16;
      && (InWindow(n, incoming) <==> 1 <= d <= 6 || (d == 0 && n >= incoming))
      && (Acknowledged(n, incoming) <==> d != 7 && d != 8)
      && Ahead(n, incoming) == (n - incoming) % 65536
  {
    var a, b := n / 4096, incoming / 4096;
    assert (a - b) % 16 == if a < b then a - b + 16 else a - b;
    assert (n - incoming) % 65536 == if n < incoming then n - incoming + 65536 else n - incoming;
  }

  lemma NumWin(i: nat)
    ensures Num(i) / WINDOW_SIZE == Win(i) % WINDOWS
    ensures i == i / SPACE * SPACE + Num(i) && Win(i) == i / SPACE * WINDOWS + Num(i) / WINDOW_SIZE
  {
    var a, b := i / SPACE, i % SPACE;
    assert i == a * SPACE + b;
    assert b == b / WINDOW_SIZE * WINDOW_SIZE + b % WINDOW_SIZE;
    assert i == (a * WINDOWS + b / WINDOW_SIZE) * WINDOW_SIZE + b % WINDOW_SIZE;
    assert Win(i) == a * WINDOWS + b / WINDOW_SIZE;
  }

  /** A number less than one turn ahead of r is placed exactly. */
  lemma AheadOf(i: nat, r: nat)
    requires r <= i && Win(i) < Win(r) + WINDOWS
    ensures RelativeWindow(Num(i), Num(r)) == Num(r) / WINDOW_SIZE + (Win(i) - Win(r))
    ensures i - r < SPACE && Ahead(Num(i), Num(r)) == i - r
    ensures InWindow(Num(i), Num(r)) <==> Win(i) < Win(r) + FREE_WINDOWS - 1
    ensures Acknowledged(Num(i), Num(r)) <==> !(Win(r) + FREE_WINDOWS - 1 <= Win(i) <= Win(r) + FREE_WINDOWS)
    ensures Num(i) == Num(r) <==> i == r
  {
    NumWin(i);
    NumWin(r);
  }

  /** What the window test really tests: the distance of the two windows modulo their number. */
  lemma WindowTest(i: nat, r: nat)
    ensures var d := (Win(i) - Win(r)) % WINDOWS;
      InWindow(Num(i), Num(r)) <==> 1 <= d < FREE_WINDOWS - 1 || (d == 0 && Num(i) >= Num(r))
  {
    NumWin(i);
    NumWin(r);
    ModuloDistance(Win(i), Win(r));
  }

  lemma ModuloDistance(v: nat, w: nat)
    ensures (v - w) % WINDOWS == v % WINDOWS - w % WINDOWS + if v % WINDOWS < w % WINDOWS then WINDOWS else 0
  {
    assert v - w == (v / WINDOWS - w / WINDOWS) * WINDOWS + (v % WINDOWS - w % WINDOWS);
  }

  /** A number behind r is taken for a new one just when it is ten windows old or more, modulo all windows. */
  lemma BehindTest(i: nat, r: nat)
    requires i < r
    ensures var d := (Win(r) - Win(i)) % WINDOWS;
      InWindow(Num(i), Num(r)) <==> FREE_WINDOWS + 2 <= d || (d == 0 && Num(i) >= Num(r))
  {
    WindowTest(i, r);
    ModuloDistance(Win(i), Win(r));
    ModuloDistance(Win(r), Win(i));
  }

  /** So one that is at most nine windows old never is. */
  lemma BehindOf(i: nat, r: nat)
    requires i < r && Win(r) <= Win(i) + FREE_WINDOWS + 1
    ensures !InWindow(Num(i), Num(r)) && Num(i) != Num(r)
  {
    BehindTest(i, r);
    NumWin(i);
    NumWin(r);
  }

  lemma NumStep(i: nat)
    ensures Num(i + 1) == (Num(i) + 1) % SPACE
  {
  }

  lemma NumAdd(i: nat, k: nat)
    ensures Num(i + k) == (Num(i) + k) % SPACE
  {
    NumWin(i);
  }

  /** The order of two numbers ahead of r is the order of their distances. */
  lemma SameAhead(i: nat, j: nat, r: nat)
    requires r <= i && r <= j && Win(i) < Win(r) + WINDOWS && Win(j) < Win(r) + WINDOWS
    ensures Num(i) == Num(j) <==> i == j
    ensures Ahead(Num(i), Num(r)) < Ahead(Num(j), Num(r)) <==> i < j
  {
    AheadOf(i, r);
    AheadOf(j, r);
  }
}
