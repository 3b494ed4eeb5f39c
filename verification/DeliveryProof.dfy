/** What every step of the channel's state machine keeps. */
module DeliveryProof {
  import opened Words
  import opened Arithmetic
  import opened SequenceNumbers
  import opened IncomingChannel
  import opened DeliveryModel

  // ---- the order of the sender's packets

  lemma {:induction false} HistoryOrder(packets: seq<Packet>, a: nat, b: nat)
    requires History(packets) && a < b < |packets|
    ensures packets[a].last <= packets[b].first <= packets[b].last
    ensures packets[b].Reliable() ==> packets[a].last < packets[b].first
    ensures !packets[a].Reliable() && !packets[b].Reliable() && packets[a].first == packets[b].first ==>
      packets[a].unreliable < packets[b].unreliable
    decreases b
  {
    assert Follows(packets[..b], packets[b]);
    var before := packets[..b];
    assert before[|before| - 1] == packets[b - 1];
    if a < b - 1 {
      HistoryOrder(packets, a, b - 1);
      assert Follows(packets[..b - 1], packets[b - 1]);
    }
  }

  /** Packets are told apart by their numbers. */
  lemma SameNumbers(packets: seq<Packet>, a: nat, b: nat)
    requires History(packets) && a < |packets| && b < |packets|
    requires packets[a].Reliable() == packets[b].Reliable()
    ensures a < b ==> packets[a].first <= packets[b].first
    ensures a < b && packets[a].first == packets[b].first ==>
      !packets[a].Reliable() && packets[a].unreliable < packets[b].unreliable
  {
    if a < b {
      HistoryOrder(packets, a, b);
      assert Follows(packets[..a], packets[a]);
    }
  }

  // ---- an entry and the packet it collects

  function Missing(got: seq<bool>): (n: nat)
    ensures n <= |got|
  {
    if got == [] then 0 else (if got[0] then 0 else 1) + Missing(got[1..])
  }

  lemma {:induction false} MissingZero(got: seq<bool>)
    ensures Missing(got) == 0 <==> forall f :: 0 <= f < |got| ==> got[f]
  {
    if got != [] {
      MissingZero(got[1..]);
      assert got == [got[0]] + got[1..];
    }
  }

  lemma {:induction false} MissingMark(got: seq<bool>, f: nat)
    requires f < |got| && !got[f]
    ensures Missing(got[f := true]) == Missing(got) - 1
  {
    if f > 0 {
      MissingMark(got[1..], f - 1);
      assert got[f := true][1..] == got[1..][f - 1 := true];
    } else {
      assert got[f := true][1..] == got[1..];
    }
  }

  lemma {:induction false} MissingAll(n: nat)
    ensures Missing(seq(n, _ => false)) == n
  {
    if n > 0 {
      MissingAll(n - 1);
      assert seq(n, _ => false)[1..] == seq(n - 1, _ => false);
    }
  }

  /** The fragment that carries byte x. */
  function PieceOf(p: Packet, x: nat): (f: nat)
    requires p.size > 0
  {
    MulMonotone(1, p.size, x + 1);
    QuotientBetween(x, p.size, 0, x + 1);
    x / p.size
  }

  /** Byte x of the packet has arrived if the fragment that carries it has. */
  ghost predicate BytesOk(e: Incoming, p: Packet) {
    && |e.packet| == |p.data| && |e.got| == p.Count() && p.size > 0
    && forall x :: 0 <= x < |p.data| ==> PieceOf(p, x) < |e.got| && (e.got[PieceOf(p, x)] ==> e.packet[x] == p.data[x])
  }

  ghost predicate EntryOk(e: Incoming, p: Packet) {
    && p.Ok() && e.kind == p.kind && e.count == p.Count() && |e.got| == e.count
    && if p.Fragmented() then e.remaining == Missing(e.got) && BytesOk(e, p)
       else e.remaining == 0 && e.packet == p.data
  }

  lemma CompleteEntry(e: Incoming, p: Packet)
    requires EntryOk(e, p) && e.remaining == 0
    ensures e.packet == p.data
  {
    if p.Fragmented() {
      MissingZero(e.got);
    }
  }

  lemma FragmentOf(p: Packet, x: nat)
    requires p.Ok() && p.Fragmented() && x < |p.data|
    ensures PieceOf(p, x) < p.Count()
    ensures p.Offset(PieceOf(p, x)) <= x < p.Offset(PieceOf(p, x)) + p.size
    ensures x < p.Offset(PieceOf(p, x)) + |p.Piece(PieceOf(p, x))|
  {
    var f := PieceOf(p, x);
    DivMod(x, p.size);
    DivMod(|p.data| + p.size - 1, p.size);
    var c := p.Count();
    assert (f + 1) * p.size == f * p.size + p.size;
    if c <= f {
      MulMonotone(c, f, p.size);
      assert false;
    }
    p.PieceBounds(f);
  }

  lemma FreshEntry(p: Packet, tag: nat, f: nat, n: uint16, u: uint16)
    requires p.Ok() && f < p.Pieces()
    ensures EntryOk(NewIncoming(p.Wire(tag, f), n, u), p)
    ensures p.Fragmented() ==> NewIncoming(p.Wire(tag, f), n, u).remaining > 0
  {
    if p.Fragmented() {
      var e := NewIncoming(p.Wire(tag, f), n, u);
      MissingAll(p.Count());
      forall x | 0 <= x < |p.data| ensures PieceOf(p, x) < |e.got| {
        FragmentOf(p, x);
      }
      DivMod(|p.data| + p.size - 1, p.size);
    }
  }

  lemma AddedByte(e: Incoming, p: Packet, c: Command, f: nat, x: nat)
    requires EntryOk(e, p) && p.Fragmented() && f < p.Count() && x < |p.data|
    requires c.fragment == f && c.offset == p.Offset(f) && c.data == p.Piece(f) && c.offset + |c.data| <= |e.packet|
    ensures var g := AddFragment(e, c);
      PieceOf(p, x) < |g.got| && (g.got[PieceOf(p, x)] ==> g.packet[x] == p.data[x])
  {
    hide PieceOf, Packet.Offset, Packet.Piece, Packet.Count;
    var g := AddFragment(e, c);
    FragmentOf(p, x);
    if p.Offset(f) <= x < p.Offset(f) + |p.Piece(f)| {
      PieceByte(p, f, x);
      assert g.packet[x] == p.Piece(f)[x - p.Offset(f)];
      OwnFragment(p, f, x);
    } else {
      assert PieceOf(p, x) != f;
      assert g.packet[x] == e.packet[x];
    }
  }

  lemma PieceByte(p: Packet, f: nat, x: nat)
    requires p.Ok() && p.Fragmented() && f < p.Count() && p.Offset(f) <= x < p.Offset(f) + |p.Piece(f)|
    ensures x < |p.data| && p.Piece(f)[x - p.Offset(f)] == p.data[x]
  {
    p.PieceBounds(f);
  }

  /** The bytes of fragment f are those whose position divided by the fragment length is f. */
  lemma OwnFragment(p: Packet, f: nat, x: nat)
    requires p.Ok() && p.Fragmented() && f < p.Count() && p.Offset(f) <= x < p.Offset(f) + |p.Piece(f)|
    ensures PieceOf(p, x) == f
  {
    p.PieceBounds(f);
    assert (f + 1) * p.size == f * p.size + p.size;
    QuotientBetween(x, p.size, f, f + 1);
  }

  /** c carries fragment f of p. */
  ghost predicate Carries(c: Command, p: Packet, f: nat) {
    && p.Ok() && p.Fragmented() && f < p.Count()
    && c.kind == p.kind && c.count == p.Count() && c.total == |p.data|
    && c.fragment == f && c.offset == p.Offset(f) && c.data == p.Piece(f)
    && c.offset + |c.data| <= c.total && c.offset < c.total
  }

  lemma WireCarries(p: Packet, tag: nat, f: nat)
    requires p.Ok() && p.Fragmented() && f < p.Count()
    ensures Carries(p.Wire(tag, f), p, f)
  {
    p.PieceBounds(f);
  }

  /** A fragment that was missing puts its own bytes in place and leaves the others alone. */
  lemma FragmentAdded(e: Incoming, p: Packet, c: Command, f: nat)
    requires EntryOk(e, p) && Carries(c, p, f) && !e.got[f]
    ensures EntryOk(AddFragment(e, c), p)
  {
    hide PieceOf, Packet.Offset, Packet.Piece, Packet.Count;
    MissingMark(e.got, f);
    var g := AddFragment(e, c);
    assert BytesOk(g, p) by {
      hide AddFragment;
      forall x | 0 <= x < |p.data|
        ensures PieceOf(p, x) < |g.got| && (g.got[PieceOf(p, x)] ==> g.packet[x] == p.data[x])
      {
        AddedByte(e, p, c, f, x);
      }
    }
  }

  // ---- the walks over 16-bit numbers find the place that the unbounded numbers give

  /** xs are the unbounded numbers of the entries, all less than one turn ahead of r. */
  ghost predicate Numbered(q: seq<Incoming>, xs: seq<nat>, r: nat) {
    && |xs| == |q|
    && forall k :: 0 <= k < |q| ==> r <= xs[k] && Win(xs[k]) < Win(r) + WINDOWS && q[k].reliable == Num(xs[k])
  }

  ghost predicate Ascending(xs: seq<nat>) {
    forall j, k :: 0 <= j < k < |xs| ==> xs[j] < xs[k]
  }

  /** The comparison that both walks make of two numbers ahead of r. */
  lemma CompareAhead(x: nat, y: nat, r: nat)
    requires r <= x && r <= y && Win(x) < Win(r) + WINDOWS && Win(y) < Win(r) + WINDOWS
    ensures Num(x) == Num(y) <==> x == y
    ensures Num(x) >= Num(r) && Num(y) < Num(r) ==> x < y
    ensures (Num(x) >= Num(r) <==> Num(y) >= Num(r)) ==> (Num(x) < Num(y) <==> x < y)
  {
    hide Num, Win;
    SameAhead(x, y, r);
  }

  lemma {:induction false} SearchReliableFinds(q: seq<Incoming>, xs: seq<nat>, x: nat, r: nat, k: nat)
    requires k <= |q| && Numbered(q, xs, r) && Ascending(xs)
    requires r <= x && Win(x) < Win(r) + WINDOWS && forall j :: k <= j < |xs| ==> x < xs[j]
    ensures match SearchReliable(q, Num(x), Num(r), k)
      case At(j) => xs[j] == x
      case Before(j) => (forall i :: 0 <= i < j ==> xs[i] < x) && (forall i :: j <= i < |xs| ==> x < xs[i])
    decreases k
  {
    if k > 0 {
      CompareAhead(x, xs[k - 1], r);
      CompareAhead(xs[k - 1], x, r);
      if x < xs[k - 1] {
        SearchReliableFinds(q, xs, x, r, k - 1);
      }
    }
  }

  /** The same for unreliable commands, which are ordered by both numbers. */
  ghost predicate Below(x: nat, u: nat, y: nat, v: nat) {
    x < y || (x == y && u < v)
  }

  lemma {:induction false} SearchUnreliableFinds(q: seq<Incoming>, xs: seq<nat>, x: nat, u: uint16, r: nat, k: nat)
    requires k <= |q| && Numbered(q, xs, r)
    requires forall i, j :: 0 <= i < j < |q| ==> Below(xs[i], q[i].unreliable, xs[j], q[j].unreliable)
    requires r <= x && Win(x) < Win(r) + WINDOWS
    requires forall j :: k <= j < |q| ==> Below(x, u, xs[j], q[j].unreliable)
    ensures match SearchUnreliable(q, Num(x), u, Num(r), k)
      case At(j) => xs[j] == x && q[j].unreliable == u
      case Before(j) =>
        && (forall i :: 0 <= i < j ==> Below(xs[i], q[i].unreliable, x, u))
        && (forall i :: j <= i < |q| ==> Below(x, u, xs[i], q[i].unreliable))
    decreases k
  {
    if k > 0 {
      CompareAhead(x, xs[k - 1], r);
      CompareAhead(xs[k - 1], x, r);
      if Below(x, u, xs[k - 1], q[k - 1].unreliable) {
        SearchUnreliableFinds(q, xs, x, u, r, k - 1);
      }
    }
  }

  // ---- dispatching unreliable commands

  ghost predicate TagsAscend(q: seq<Incoming>) {
    forall j, k :: 0 <= j < k < |q| ==> q[j].tag < q[k].tag
  }

  /** An entry of the unreliable queue; it may have fallen behind r, but not far. */
  ghost predicate UnreliableEntry(packets: seq<Packet>, e: Incoming, r: nat) {
    && e.tag < |packets| && !packets[e.tag].Reliable() && EntryOk(e, packets[e.tag])
    && e.reliable == Num(packets[e.tag].first) && e.unreliable == packets[e.tag].unreliable
    && (packets[e.tag].first >= r ==> Win(packets[e.tag].first) < Win(r) + FREE_WINDOWS - 1)
    && (packets[e.tag].first < r ==> Win(r) <= Win(packets[e.tag].first) + FREE_WINDOWS + 1)
  }

  /** Entries that wait for fragments or for a later reliable number. */
  ghost predicate Waiting(packets: seq<Packet>, e: Incoming, r: nat) {
    e.tag < |packets| && (packets[e.tag].first > r || (packets[e.tag].first == r && e.remaining > 0))
  }

  ghost predicate Behind(packets: seq<Packet>, e: Incoming, r: nat) {
    e.tag < |packets| && packets[e.tag].first < r
  }

  /** Complete entries that belong directly after reliable number r. */
  ghost predicate Due(packets: seq<Packet>, e: Incoming, r: nat, iu: nat) {
    e.tag < |packets| && packets[e.tag].first == r && e.remaining == 0 && e.unreliable > iu
  }

  ghost predicate UnreliableQueue(packets: seq<Packet>, q: seq<Incoming>, r: nat, iu: nat) {
    && TagsAscend(q)
    && forall k :: 0 <= k < |q| ==>
      && UnreliableEntry(packets, q[k], r)
      && (packets[q[k].tag].first == r && q[k].remaining == 0 ==> q[k].unreliable > iu)
  }

  /** After a dispatch. */
  ghost predicate UnreliableSettled(packets: seq<Packet>, q: seq<Incoming>, r: nat) {
    && TagsAscend(q)
    && forall k :: 0 <= k < |q| ==> UnreliableEntry(packets, q[k], r) && Waiting(packets, q[k], r)
  }

  /** due, what was moved or is about to be, is in order and comes before what is left of the queue. */
  ghost predicate DueInv(packets: seq<Packet>, q: seq<Incoming>, r: nat, iu: nat, due: seq<Incoming>, current: nat, u: nat) {
    && TagsAscend(due)
    && (forall k :: 0 <= k < |due| ==> Due(packets, due[k], r, iu) && UnreliableEntry(packets, due[k], r))
    && (forall j, k :: 0 <= k < |due| && current <= j < |q| ==> due[k].tag < q[j].tag)
    && u == (if due == [] then iu else due[|due| - 1].unreliable)
  }

  /** What was passed over without being dropped still waits. */
  ghost predicate StaysInv(packets: seq<Packet>, q: seq<Incoming>, r: nat, stays: seq<nat>, dropped: nat, current: nat) {
    && (forall j, k :: 0 <= j < k < |stays| ==> stays[j] < stays[k])
    && (forall k :: 0 <= k < |stays| ==>
      && stays[k] < current <= |q|
      && (Waiting(packets, q[stays[k]], r) || (stays[k] < dropped && Behind(packets, q[stays[k]], r))))
  }

  ghost predicate ScanInv(packets: seq<Packet>, q: seq<Incoming>, r: nat, iu: nat, s: Scan) {
    && ScanOk(q, s)
    && DueInv(packets, q, r, iu, s.moved + q[s.start..s.current], s.current, s.unreliable)
    && StaysInv(packets, q, r, s.stays, s.dropped, s.current)
  }

  lemma DueGrows(packets: seq<Packet>, q: seq<Incoming>, r: nat, iu: nat, due: seq<Incoming>, current: nat, u: nat)
    requires UnreliableQueue(packets, q, r, iu) && current < |q| && DueInv(packets, q, r, iu, due, current, u)
    requires packets[q[current].tag].first == r && q[current].remaining == 0
    ensures DueInv(packets, q, r, iu, due + [q[current]], current + 1, q[current].unreliable)
  {
  }

  lemma DueSkips(packets: seq<Packet>, q: seq<Incoming>, r: nat, iu: nat, due: seq<Incoming>, current: nat, u: nat)
    requires DueInv(packets, q, r, iu, due, current, u)
    ensures DueInv(packets, q, r, iu, due, current + 1, u)
  {
  }

  lemma StaysGrow(packets: seq<Packet>, q: seq<Incoming>, r: nat, stays: seq<nat>, dropped: nat, dropped': nat, current: nat)
    requires StaysInv(packets, q, r, stays, dropped, current) && dropped <= dropped' && current < |q|
    requires Waiting(packets, q[current], r) || (current < dropped' && Behind(packets, q[current], r))
    ensures StaysInv(packets, q, r, stays + [current], dropped', current + 1)
  {
  }

  lemma StaysSkip(packets: seq<Packet>, q: seq<Incoming>, r: nat, stays: seq<nat>, dropped: nat, current: nat)
    requires StaysInv(packets, q, r, stays, dropped, current) && current < |q|
    ensures StaysInv(packets, q, r, stays, dropped, current + 1)
  {
  }

  /** The 16-bit tests of the walk mean what they should. */
  lemma WalkTests(packets: seq<Packet>, e: Incoming, r: nat)
    requires UnreliableEntry(packets, e, r)
    ensures e.reliable == Num(r) <==> packets[e.tag].first == r
    ensures InWindow(e.reliable, Num(r)) <==> packets[e.tag].first >= r
  {
    var x := packets[e.tag].first;
    if x >= r {
      AheadOf(x, r);
    } else {
      BehindOf(x, r);
    }
  }

  lemma TurnTakes(packets: seq<Packet>, q: seq<Incoming>, r: nat, iu: nat, s: Scan)
    requires UnreliableQueue(packets, q, r, iu) && ScanInv(packets, q, r, iu, s) && s.current < |q|
    requires q[s.current].reliable == Num(r) && packets[q[s.current].tag].first == r && q[s.current].remaining == 0
    ensures ScanInv(packets, q, r, iu, ScanTurn(q, Num(r), s))
  {
    hide EntryOk, DueInv, StaysInv, UnreliableQueue, Num;
    var t := ScanTurn(q, Num(r), s);
    var due := s.moved + q[s.start..s.current];
    DueGrows(packets, q, r, iu, due, s.current, s.unreliable);
    StaysSkip(packets, q, r, s.stays, s.dropped, s.current);
    assert t.moved + q[t.start..t.current] == due + [q[s.current]];
  }

  lemma TurnPasses(packets: seq<Packet>, q: seq<Incoming>, r: nat, iu: nat, s: Scan)
    requires ScanInv(packets, q, r, iu, s) && s.current < |q|
    requires q[s.current].reliable == Num(r) || !InWindow(q[s.current].reliable, Num(r))
    requires if q[s.current].reliable == Num(r) then Waiting(packets, q[s.current], r) && q[s.current].remaining > 0
             else Behind(packets, q[s.current], r)
    ensures ScanInv(packets, q, r, iu, ScanTurn(q, Num(r), s))
  {
    hide DueInv, StaysInv, Num, InWindow, Waiting, Behind;
    var t := ScanTurn(q, Num(r), s);
    var due := s.moved + q[s.start..s.current];
    DueSkips(packets, q, r, iu, due, s.current, s.unreliable);
    StaysGrow(packets, q, r, s.stays, s.dropped, t.dropped, s.current);
    assert t.moved + q[t.start..t.current] == due;
  }

  lemma ScanTurnKeeps(packets: seq<Packet>, q: seq<Incoming>, r: nat, iu: nat, s: Scan)
    requires UnreliableQueue(packets, q, r, iu) && ScanInv(packets, q, r, iu, s) && s.current < |q|
    requires q[s.current].reliable == Num(r) || !InWindow(q[s.current].reliable, Num(r))
    ensures ScanInv(packets, q, r, iu, ScanTurn(q, Num(r), s))
  {
    var e := q[s.current];
    WalkTests(packets, e, r);
    if packets[e.tag].first == r && e.remaining == 0 {
      TurnTakes(packets, q, r, iu, s);
    } else {
      TurnPasses(packets, q, r, iu, s);
    }
  }

  lemma {:induction false} ScanAllKeeps(packets: seq<Packet>, q: seq<Incoming>, r: nat, iu: nat, s: Scan)
    requires UnreliableQueue(packets, q, r, iu) && ScanInv(packets, q, r, iu, s)
    ensures ScanInv(packets, q, r, iu, ScanAll(q, Num(r), s))
    ensures var t := ScanAll(q, Num(r), s);
      t.current == |q| || (t.current < |q| && packets[q[t.current].tag].first > r)
    decreases |q| - s.current
  {
    if s.current < |q| {
      WalkTests(packets, q[s.current], r);
      hide InWindow, EntryOk, UnreliableEntry, DueInv, StaysInv, Due, ScanTurn;
      if q[s.current].reliable == Num(r) || !InWindow(q[s.current].reliable, Num(r)) {
        ScanTurnKeeps(packets, q, r, iu, s);
        ScanAllKeeps(packets, q, r, iu, ScanTurn(q, Num(r), s));
      }
    }
  }

  /** The entries that are kept are a part of the queue in its order, all still waiting. */
  lemma {:induction false} KeptWaits(packets: seq<Packet>, q: seq<Incoming>, r: nat, stays: seq<nat>, dropped: nat,
                                     current: nat, queued: int, low: int)
    requires TagsAscend(q) && StaysInv(packets, q, r, stays, dropped, current)
    requires forall k :: 0 <= k < |q| ==> UnreliableEntry(packets, q[k], r)
    requires 0 <= queued < |q| ==> !Behind(packets, q[queued], r)
    requires forall k :: 0 <= k < |stays| ==> low < q[stays[k]].tag
    ensures var kept := Kept(q, stays, dropped, queued);
      && UnreliableSettled(packets, kept, r)
      && (forall k :: 0 <= k < |kept| ==> low < kept[k].tag)
    ensures current < |q| ==> forall k :: 0 <= k < |Kept(q, stays, dropped, queued)| ==>
      Kept(q, stays, dropped, queued)[k].tag < q[current].tag
    decreases |stays|
  {
    hide UnreliableEntry, Waiting, Behind;
    if stays != [] {
      var x, rest := stays[0], stays[1..];
      assert forall i :: 0 <= i < |rest| ==> rest[i] == stays[i + 1];
      KeptWaits(packets, q, r, rest, dropped, current, queued, q[x].tag);
    }
  }

  /** The walk as a whole: what it moves was due, in order; what it leaves waits. */
  lemma DispatchUnreliableKeeps(packets: seq<Packet>, c: Channel, r: nat, queued: int)
    requires History(packets) && c.incoming == Num(r) && UnreliableQueue(packets, c.unreliables, r, c.unreliable)
    requires 0 <= queued < |c.unreliables| ==> !Behind(packets, c.unreliables[queued], r)
    ensures var d := DispatchUnreliable(c, queued);
      && d.0.incoming == c.incoming && d.0.reliables == c.reliables
      && UnreliableSettled(packets, d.0.unreliables, r)
      && TagsAscend(d.1)
      && (forall k :: 0 <= k < |d.1| ==> Due(packets, d.1[k], r, c.unreliable) && UnreliableEntry(packets, d.1[k], r))
      && d.0.unreliable == (if d.1 == [] then c.unreliable else d.1[|d.1| - 1].unreliable)
  {
    hide UnreliableEntry, Due, Waiting, Behind, StaysInv, ScanInv, UnreliableSettled, ScanAll, Kept, History;
    var q, iu := c.unreliables, c.unreliable;
    var s0 := Scan(0, 0, 0, iu, [], []);
    ScanStarts(packets, q, r, iu);
    ScanAllKeeps(packets, q, r, iu, s0);
    var s := ScanAll(q, Num(r), s0);
    var t := if s.start != s.current then Flush(q, s).(dropped := s.current) else s;
    FlushedRest(packets, q, r, iu, s);
    KeptWaits(packets, q, r, t.stays, t.dropped, t.current, queued, -1);
    RestWaits(packets, q, r, iu, t.current);
    JoinSettled(packets, Kept(q, t.stays, t.dropped, queued), q[t.current..], r);
  }

  lemma ScanStarts(packets: seq<Packet>, q: seq<Incoming>, r: nat, iu: uint16)
    ensures ScanInv(packets, q, r, iu, Scan(0, 0, 0, iu, [], []))
  {
  }

  /** The last move of the walk. */
  lemma FlushedRest(packets: seq<Packet>, q: seq<Incoming>, r: nat, iu: nat, s: Scan)
    requires ScanInv(packets, q, r, iu, s)
    ensures var t := if s.start != s.current then Flush(q, s).(dropped := s.current) else s;
      && t.current == s.current && t.stays == s.stays && t.unreliable == s.unreliable
      && StaysInv(packets, q, r, t.stays, t.dropped, t.current)
      && DueInv(packets, q, r, iu, t.moved, t.current, t.unreliable)
  {
    assert s.start == s.current ==> s.moved + q[s.start..s.current] == s.moved;
  }

  lemma RestWaits(packets: seq<Packet>, q: seq<Incoming>, r: nat, iu: nat, current: nat)
    requires History(packets) && UnreliableQueue(packets, q, r, iu) && current <= |q|
    requires current < |q| ==> packets[q[current].tag].first > r
    ensures UnreliableSettled(packets, q[current..], r)
  {
    forall k | current <= k < |q| ensures packets[q[k].tag].first > r {
      if current < k {
        HistoryOrder(packets, q[current].tag, q[k].tag);
        assert UnreliableEntry(packets, q[current], r);
      }
    }
  }

  lemma JoinSettled(packets: seq<Packet>, a: seq<Incoming>, b: seq<Incoming>, r: nat)
    requires UnreliableSettled(packets, a, r) && UnreliableSettled(packets, b, r)
    requires b != [] ==> forall k :: 0 <= k < |a| ==> a[k].tag < b[0].tag
    ensures UnreliableSettled(packets, a + b, r)
  {
    hide UnreliableEntry, Waiting;
  }

  // ---- dispatching reliable commands

  /** An entry of the reliable queue: its packet's numbers lie ahead of r within the free windows, and
      every fragment it holds was sent. */
  ghost predicate ReliableEntry(packets: seq<Packet>, e: Incoming, r: nat, sent: nat) {
    && e.tag < |packets| && packets[e.tag].Reliable() && EntryOk(e, packets[e.tag])
    && e.reliable == Num(packets[e.tag].first)
    && r < packets[e.tag].first <= sent && Win(packets[e.tag].first) < Win(r) + FREE_WINDOWS - 1
    && forall f :: 0 <= f < |e.got| && e.got[f] ==> packets[e.tag].first + f <= sent
  }

  ghost predicate ReliableQueue(packets: seq<Packet>, q: seq<Incoming>, r: nat, sent: nat) {
    TagsAscend(q) && forall k :: 0 <= k < |q| ==> ReliableEntry(packets, q[k], r, sent)
  }

  /** Of the first n packets, the reliable ones whose numbers all lie at or below r, in the sender's order. */
  function TagsUpTo(packets: seq<Packet>, n: nat, r: nat): seq<nat>
    requires n <= |packets|
  {
    if n == 0 then []
    else TagsUpTo(packets, n - 1, r) + if packets[n - 1].Reliable() && packets[n - 1].last <= r then [n - 1] else []
  }

  function Tags(q: seq<Incoming>): (tags: seq<nat>)
    ensures |tags| == |q|
  {
    seq(|q|, k requires 0 <= k < |q| => q[k].tag)
  }

  lemma NumbersOrdered(packets: seq<Packet>, a: nat)
    requires History(packets) && a < |packets|
    ensures packets[a].Ok() && packets[a].first <= packets[a].last
  {
    assert Follows(packets[..a], packets[a]);
  }

  /** The packet that begins right after r is the next one. */
  lemma {:induction false} TagsStep(packets: seq<Packet>, n: nat, tag: nat, r: nat)
    requires History(packets) && n <= |packets| && tag < |packets| && packets[tag].Reliable() && packets[tag].first == r + 1
    ensures TagsUpTo(packets, n, packets[tag].last) == TagsUpTo(packets, n, r) + if tag < n then [tag] else []
    decreases n
  {
    hide History, Packet.Ok;
    if n > 0 {
      TagsStep(packets, n - 1, tag, r);
      NumbersOrdered(packets, tag);
      if n - 1 < tag {
        HistoryOrder(packets, n - 1, tag);
      } else if tag < n - 1 {
        HistoryOrder(packets, tag, n - 1);
      }
    }
  }

  /** The unbounded number that the dispatch reaches. */
  ghost function ReadyLast(packets: seq<Packet>, q: seq<Incoming>, r: nat): nat {
    if q == [] || q[0].remaining > 0 || q[0].tag >= |packets| || packets[q[0].tag].first != r + 1 then r
    else ReadyLast(packets, q[1..], packets[q[0].tag].last)
  }

  /** The entry at the front is ready iff its packet comes next, and then it ends at its packet's last number. */
  lemma ReadyTest(packets: seq<Packet>, e: Incoming, r: nat, sent: nat)
    requires ReliableEntry(packets, e, r, sent)
    ensures e.reliable == (Num(r) + 1) % SPACE <==> packets[e.tag].first == r + 1
    ensures LastNumber(e) == Num(packets[e.tag].last)
    ensures e.remaining == 0 ==> packets[e.tag].last <= sent
  {
    var p := packets[e.tag];
    NumStep(r);
    AheadOf(p.first, r);
    AheadOf(r, r);
    NextAhead(p.first, r);
    if p.Fragmented() {
      NumAdd(p.first, p.Count() - 1);
      if e.remaining == 0 {
        MissingZero(e.got);
        assert e.got[p.Count() - 1];
      }
    }
  }

  lemma NextAhead(x: nat, r: nat)
    requires r < x && Win(x) < Win(r) + FREE_WINDOWS
    ensures Num(x) == Num(r + 1) <==> x == r + 1
  {
    NumWin(x);
    NumWin(r + 1);
  }

  /** A complete reliable packet whose numbers all lie in (low, r]. */
  ghost predicate Deliverable(packets: seq<Packet>, e: Incoming, low: nat, r: nat) {
    && e.tag < |packets| && packets[e.tag].Reliable() && EntryOk(e, packets[e.tag]) && e.remaining == 0
    && low < packets[e.tag].first && packets[e.tag].last <= r
  }

  /** r is not in the middle of a packet. */
  ghost predicate Boundary(packets: seq<Packet>, r: nat) {
    forall t :: 0 <= t < |packets| && packets[t].Reliable() && packets[t].first <= r ==> packets[t].last <= r
  }

  lemma BoundaryAt(packets: seq<Packet>, t: nat)
    requires History(packets) && t < |packets|
    ensures Boundary(packets, packets[t].last)
  {
    hide History, Packet.Ok;
    forall u | 0 <= u < |packets| && packets[u].Reliable() && packets[u].first <= packets[t].last
      ensures packets[u].last <= packets[t].last
    {
      if t < u {
        HistoryOrder(packets, t, u);
      } else if u < t {
        HistoryOrder(packets, u, t);
      }
    }
  }

  lemma {:induction false} ReadyAdvances(packets: seq<Packet>, q: seq<Incoming>, r: nat, sent: nat)
    requires History(packets) && ReliableQueue(packets, q, r, sent)
    ensures Boundary(packets, r) ==> Boundary(packets, ReadyLast(packets, q, r))
    ensures var k, r' := ReadyCount(q, Num(r)), ReadyLast(packets, q, r);
      && ReadyNumber(q, Num(r)) == Num(r')
      && (if k == 0 then r' == r else r < r' <= sent)
      && ReliableQueue(packets, q[k..], r', sent)
      && (forall j :: 0 <= j < k ==> Deliverable(packets, q[j], r, r'))
      && TagsUpTo(packets, |packets|, r') == TagsUpTo(packets, |packets|, r) + Tags(q[..k])
    decreases |q|
  {
    hide History, LastNumber, TagsUpTo, ReliableQueue, ReliableEntry, EntryOk, Packet.Ok, Deliverable, Num, Win, Boundary;
    if q == [] {
      assert Tags(q[..0]) == [];
    } else {
      var e := q[0];
      ReadyFront(packets, q, r, sent);
      if e.remaining == 0 && packets[e.tag].first == r + 1 {
        var r1 := packets[e.tag].last;
        BoundaryAt(packets, e.tag);
        ReadyAdvances(packets, q[1..], r1, sent);
        TagsStep(packets, |packets|, e.tag, r);
        var k, r' := ReadyCount(q[1..], Num(r1)), ReadyLast(packets, q[1..], r1);
        assert q[1..][k..] == q[k + 1..];
        assert Tags(q[..k + 1]) == [e.tag] + Tags(q[1..][..k]);
        forall j | 0 <= j < k + 1 ensures Deliverable(packets, q[j], r, r') {
          if j == 0 {
            DeliverableWidens(packets, e, r, r1, r, r');
          } else {
            assert q[j] == q[1..][j - 1];
            DeliverableWidens(packets, q[j], r1, r', r, r');
          }
        }
      } else {
        assert Tags(q[..0]) == [];
      }
    }
  }

  lemma DeliverableWidens(packets: seq<Packet>, e: Incoming, low: nat, r: nat, low': nat, r': nat)
    requires Deliverable(packets, e, low, r) && low' <= low && r <= r'
    ensures Deliverable(packets, e, low', r')
  {
  }

  /** One turn: the front entry, if it is ready, is delivered and the rest lies ahead of its last number. */
  lemma ReadyFront(packets: seq<Packet>, q: seq<Incoming>, r: nat, sent: nat)
    requires History(packets) && ReliableQueue(packets, q, r, sent) && q != []
    ensures q[0].tag < |packets| && packets[q[0].tag].Reliable()
    ensures q[0].reliable == (Num(r) + 1) % SPACE <==> packets[q[0].tag].first == r + 1
    ensures LastNumber(q[0]) == Num(packets[q[0].tag].last)
    ensures q[0].remaining == 0 && packets[q[0].tag].first == r + 1 ==>
      && r < packets[q[0].tag].last <= sent
      && Deliverable(packets, q[0], r, packets[q[0].tag].last)
      && ReliableQueue(packets, q[1..], packets[q[0].tag].last, sent)
  {
    ReadyTest(packets, q[0], r, sent);
    NumbersOrdered(packets, q[0].tag);
    if q[0].remaining == 0 && packets[q[0].tag].first == r + 1 {
      RestAhead(packets, q, r, sent);
    }
  }

  lemma RestAhead(packets: seq<Packet>, q: seq<Incoming>, r: nat, sent: nat)
    requires History(packets) && ReliableQueue(packets, q, r, sent) && q != []
    ensures ReliableQueue(packets, q[1..], packets[q[0].tag].last, sent)
  {
    hide History, EntryOk;
    NumbersOrdered(packets, q[0].tag);
    assert ReliableEntry(packets, q[0], r, sent);
    hide Packet.Ok;
    forall j | 1 <= j < |q| ensures ReliableEntry(packets, q[j], packets[q[0].tag].last, sent) {
      assert ReliableEntry(packets, q[j], r, sent);
      HistoryOrder(packets, q[0].tag, q[j].tag);
    }
  }

  // ---- what was dispatched

  /** The packet comes at or before the point (r, iu) of the channel's stream. */
  ghost predicate AtMost(p: Packet, r: nat, iu: nat) {
    p.last < r || (p.last == r && (p.Reliable() || p.unreliable <= iu))
  }

  ghost predicate Dispatched(packets: seq<Packet>, e: Incoming, r: nat, iu: nat) {
    e.tag < |packets| && e.kind == packets[e.tag].kind && e.packet == packets[e.tag].data && AtMost(packets[e.tag], r, iu)
  }

  function ReliableTags(packets: seq<Packet>, q: seq<Incoming>): seq<nat> {
    if q == [] then []
    else
      var e := q[|q| - 1];
      ReliableTags(packets, q[..|q| - 1]) + if e.tag < |packets| && packets[e.tag].Reliable() then [e.tag] else []
  }

  /** The stream so far: the sender's packets in the sender's order, none twice, none from beyond
      (r, iu), and of the reliable ones all up to r; if iu is a number, it is the last packet's. */
  ghost predicate OutInv(packets: seq<Packet>, out: seq<Incoming>, r: nat, iu: nat) {
    && TagsAscend(out)
    && (forall k :: 0 <= k < |out| ==> Dispatched(packets, out[k], r, iu))
    && ReliableTags(packets, out) == TagsUpTo(packets, |packets|, r)
    && (iu > 0 ==> out != [] && EndsAt(packets, out[|out| - 1], r, iu))
  }

  ghost predicate EndsAt(packets: seq<Packet>, e: Incoming, r: nat, iu: nat) {
    e.tag < |packets| && !packets[e.tag].Reliable() && packets[e.tag].first == r && packets[e.tag].unreliable == iu
  }

  /** Whatever lies beyond (r, iu) comes after whatever does not. */
  lemma BeyondIsLater(packets: seq<Packet>, a: nat, b: nat, r: nat, iu: nat)
    requires History(packets) && a < |packets| && b < |packets| && AtMost(packets[a], r, iu)
    requires packets[b].first > r || (packets[b].first == r && !packets[b].Reliable() && packets[b].unreliable > iu)
    ensures a < b
  {
    NumbersOrdered(packets, a);
    NumbersOrdered(packets, b);
    if b < a {
      HistoryOrder(packets, b, a);
    }
  }

  lemma {:induction false} ReliableTagsAppend(packets: seq<Packet>, out: seq<Incoming>, q: seq<Incoming>, reliable: bool)
    requires forall k :: 0 <= k < |q| ==> q[k].tag < |packets| && packets[q[k].tag].Reliable() == reliable
    ensures ReliableTags(packets, out + q) == ReliableTags(packets, out) + if reliable then Tags(q) else []
    decreases |q|
  {
    if q == [] {
      assert out + q == out;
    } else {
      var n := |q| - 1;
      ReliableTagsAppend(packets, out, q[..n], reliable);
      assert (out + q)[..|out + q| - 1] == out + q[..n];
      assert Tags(q) == Tags(q[..n]) + [q[n].tag];
    }
  }

  lemma AscendAppend(packets: seq<Packet>, out: seq<Incoming>, q: seq<Incoming>)
    requires TagsAscend(out) && TagsAscend(q)
    requires forall j, k :: 0 <= j < |out| && 0 <= k < |q| ==> out[j].tag < q[k].tag
    ensures TagsAscend(out + q)
  {
  }

  lemma OutGrowsReliable(packets: seq<Packet>, out: seq<Incoming>, q: seq<Incoming>, r: nat, iu: nat, r': nat)
    requires History(packets) && OutInv(packets, out, r, iu) && TagsAscend(q)
    requires forall k :: 0 <= k < |q| ==> Deliverable(packets, q[k], r, r')
    requires TagsUpTo(packets, |packets|, r') == TagsUpTo(packets, |packets|, r) + Tags(q) && r < r'
    ensures OutInv(packets, out + q, r', 0)
  {
    hide History, EntryOk, TagsUpTo, ReliableTags;
    forall j, k | 0 <= j < |out| && 0 <= k < |q| ensures out[j].tag < q[k].tag {
      assert Dispatched(packets, out[j], r, iu);
      BeyondIsLater(packets, out[j].tag, q[k].tag, r, iu);
    }
    AscendAppend(packets, out, q);
    ReliableTagsAppend(packets, out, q, true);
    forall k | 0 <= k < |q| ensures Dispatched(packets, q[k], r', 0) {
      CompleteEntry(q[k], packets[q[k].tag]);
      EntryKind(q[k], packets[q[k].tag]);
    }
    forall k | 0 <= k < |out| ensures Dispatched(packets, out[k], r', 0) {
      assert Dispatched(packets, out[k], r, iu);
    }
  }

  lemma EntryKind(e: Incoming, p: Packet)
    requires EntryOk(e, p)
    ensures e.kind == p.kind && p.Ok()
  {
  }

  lemma OutGrowsUnreliable(packets: seq<Packet>, out: seq<Incoming>, q: seq<Incoming>, r: nat, iu: nat)
    requires History(packets) && OutInv(packets, out, r, iu) && TagsAscend(q)
    requires forall k :: 0 <= k < |q| ==> Due(packets, q[k], r, iu) && UnreliableEntry(packets, q[k], r)
    ensures OutInv(packets, out + q, r, if q == [] then iu else q[|q| - 1].unreliable)
  {
    hide History, EntryOk, TagsUpTo, ReliableTags;
    var u := if q == [] then iu else q[|q| - 1].unreliable;
    forall j, k | 0 <= j < |out| && 0 <= k < |q| ensures out[j].tag < q[k].tag {
      assert Dispatched(packets, out[j], r, iu);
      BeyondIsLater(packets, out[j].tag, q[k].tag, r, iu);
    }
    AscendAppend(packets, out, q);
    ReliableTagsAppend(packets, out, q, false);
    forall k | 0 <= k < |q| ensures Dispatched(packets, q[k], r, u) {
      CompleteEntry(q[k], packets[q[k].tag]);
      EntryKind(q[k], packets[q[k].tag]);
      if k < |q| - 1 {
        SameNumbers(packets, q[k].tag, q[|q| - 1].tag);
      }
    }
    forall k | 0 <= k < |out| ensures Dispatched(packets, out[k], r, u) {
      assert Dispatched(packets, out[k], r, iu);
      if q != [] {
        assert Due(packets, q[|q| - 1], r, iu);
      }
    }
  }
}
