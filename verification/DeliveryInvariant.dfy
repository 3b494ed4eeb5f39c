/** The invariant of a channel's run, and the theorems about every run. */
module DeliveryInvariant {
  import opened Words
  import opened Arithmetic
  import opened SequenceNumbers
  import opened IncomingChannel
  import opened DeliveryModel
  import opened DeliveryProof

  /** The receiver's channel stands at the unbounded number r, less than eight windows behind the newest sent. */
  ghost predicate ChannelInv(packets: seq<Packet>, c: Channel, r: nat, sent: nat) {
    && c.incoming == Num(r) && Boundary(packets, r) && r <= sent && Win(sent) < Win(r) + FREE_WINDOWS
    && ReliableQueue(packets, c.reliables, r, sent)
    && UnreliableSettled(packets, c.unreliables, r)
  }

  /** Settled entries are still in reach when the channel moves on to r'. */
  lemma UnreliableMoves(packets: seq<Packet>, q: seq<Incoming>, r: nat, r': nat, iu: nat)
    requires UnreliableSettled(packets, q, r) && r <= r' && Win(r') < Win(r) + FREE_WINDOWS
    requires r == r' || iu == 0
    ensures UnreliableQueue(packets, q, r', iu)
  {
    forall k | 0 <= k < |q| ensures UnreliableEntry(packets, q[k], r') {
      assert UnreliableEntry(packets, q[k], r) && Waiting(packets, q[k], r);
    }
    forall k | 0 <= k < |q| && packets[q[k].tag].first == r' && q[k].remaining == 0 ensures q[k].unreliable > iu {
      assert UnreliableEntry(packets, q[k], r) && Waiting(packets, q[k], r);
      EntryKind(q[k], packets[q[k].tag]);
    }
  }

  lemma DispatchReliableKeeps(packets: seq<Packet>, c: Channel, r: nat, sent: nat, out: seq<Incoming>)
    requires History(packets) && ChannelInv(packets, c, r, sent) && OutInv(packets, out, r, c.unreliable)
    ensures var d, r' := DispatchReliable(c), ReadyLast(packets, c.reliables, r);
      r <= r' && ChannelInv(packets, d.0, r', sent) && OutInv(packets, out + d.1, r', d.0.unreliable)
  {
    hide History, Boundary, ReliableQueue, UnreliableSettled, UnreliableQueue, OutInv, DispatchUnreliable, TagsAscend, Num, Due, Deliverable, UnreliableEntry;
    ReadyAdvances(packets, c.reliables, r, sent);
    var k, r' := ReadyCount(c.reliables, c.incoming), ReadyLast(packets, c.reliables, r);
    if k == 0 {
      assert out + [] == out;
    } else {
      var front := c.reliables[..k];
      var d := c.(incoming := ReadyNumber(c.reliables, c.incoming), unreliable := 0, reliables := c.reliables[k..]);
      PrefixAscends(packets, c.reliables, r, sent, k);
      WinMonotone(r', sent);
      UnreliableMoves(packets, c.unreliables, r, r', 0);
      OutGrowsReliable(packets, out, front, r, c.unreliable, r');
      DispatchUnreliableKeeps(packets, d, r', -1);
      var e := DispatchUnreliable(d, -1);
      OutGrowsUnreliable(packets, out + front, e.1, r', 0);
      assert out + (front + e.1) == out + front + e.1;
      WinMonotone(r, r');
    }
  }

  lemma WinMonotone(a: nat, b: nat)
    requires a <= b
    ensures Win(a) <= Win(b)
  {
  }

  lemma PrefixAscends(packets: seq<Packet>, q: seq<Incoming>, r: nat, sent: nat, k: nat)
    requires ReliableQueue(packets, q, r, sent) && k <= |q|
    ensures TagsAscend(q[..k])
  {
  }

  // ---- what an acknowledgement stands for

  ghost predicate HoldsNumber(packets: seq<Packet>, e: Incoming, i: nat) {
    && e.tag < |packets| && packets[e.tag].Reliable() && packets[e.tag].first <= i <= packets[e.tag].last
    && (packets[e.tag].Fragmented() ==> i - packets[e.tag].first < |e.got| && e.got[i - packets[e.tag].first])
  }

  /** The receiver has command i for good: it was dispatched, or it waits in the queue. */
  ghost predicate Has(packets: seq<Packet>, q: seq<Incoming>, r: nat, i: nat) {
    i <= r || exists k :: 0 <= k < |q| && HoldsNumber(packets, q[k], i)
  }

  /** And it lies within the seven windows from the receiver's own on. */
  ghost predicate Secured(packets: seq<Packet>, q: seq<Incoming>, r: nat, i: nat) {
    Win(i) < Win(r) + FREE_WINDOWS - 1 && Has(packets, q, r, i)
  }

  lemma HasAfterDispatch(packets: seq<Packet>, c: Channel, r: nat, sent: nat, i: nat)
    requires History(packets) && ChannelInv(packets, c, r, sent)
    ensures Has(packets, c.reliables, r, i) ==>
      Has(packets, DispatchReliable(c).0.reliables, ReadyLast(packets, c.reliables, r), i)
  {
    hide History, ReliableQueue, UnreliableSettled, DispatchUnreliable, TagsAscend;
    ReadyAdvances(packets, c.reliables, r, sent);
    var q, k, r' := c.reliables, ReadyCount(c.reliables, c.incoming), ReadyLast(packets, c.reliables, r);
    DispatchedQueue(c);
    WinMonotone(r, r');
    if i > r && Has(packets, q, r, i) {
      var j :| 0 <= j < |q| && HoldsNumber(packets, q[j], i);
      if j < k {
        assert Deliverable(packets, q[j], r, r');
      } else {
        assert q[k..][j - k] == q[j];
      }
    }
  }

  // ---- inserting into the reliable queue

  ghost function Firsts(packets: seq<Packet>, q: seq<Incoming>): (xs: seq<nat>)
    requires forall k :: 0 <= k < |q| ==> q[k].tag < |packets|
    ensures |xs| == |q| && forall k :: 0 <= k < |q| ==> xs[k] == packets[q[k].tag].first
  {
    seq(|q|, k requires 0 <= k < |q| => packets[q[k].tag].first)
  }

  /** The walk finds the packet's own entry, or its place among the others. */
  lemma ReliablePlace(packets: seq<Packet>, q: seq<Incoming>, r: nat, sent: nat, tag: nat)
    requires History(packets) && ReliableQueue(packets, q, r, sent) && tag < |packets| && packets[tag].Reliable()
    requires r < packets[tag].first && Win(packets[tag].first) < Win(r) + WINDOWS
    ensures var f := SearchReliable(q, Num(packets[tag].first), Num(r), |q|);
      if f.At? then q[f.index].tag == tag
      else (forall i :: 0 <= i < f.index ==> q[i].tag < tag) && (forall i :: f.index <= i < |q| ==> tag < q[i].tag)
  {
    hide EntryOk, History;
    var x := packets[tag].first;
    forall k | 0 <= k < |q| ensures ReliableEntry(packets, q[k], r, sent) {
    }
    var xs := Firsts(packets, q);
    forall j, k | 0 <= j < k < |q| ensures xs[j] < xs[k] {
      SameNumbers(packets, q[j].tag, q[k].tag);
    }
    SearchReliableFinds(q, xs, x, r, |q|);
    forall k | 0 <= k < |q| ensures (xs[k] < x ==> q[k].tag < tag) && (x < xs[k] ==> tag < q[k].tag) && (xs[k] == x ==> q[k].tag == tag) {
      SameNumbers(packets, q[k].tag, tag);
      SameNumbers(packets, tag, q[k].tag);
    }
  }

  lemma ReliableInserted(packets: seq<Packet>, q: seq<Incoming>, r: nat, sent: nat, j: nat, e: Incoming)
    requires ReliableQueue(packets, q, r, sent) && ReliableEntry(packets, e, r, sent) && j <= |q|
    requires (forall i :: 0 <= i < j ==> q[i].tag < e.tag) && (forall i :: j <= i < |q| ==> e.tag < q[i].tag)
    ensures ReliableQueue(packets, Insert(q, j, e), r, sent)
  {
    hide ReliableEntry;
  }

  lemma HasAfterInsert(packets: seq<Packet>, q: seq<Incoming>, r: nat, j: nat, e: Incoming, i: nat)
    requires j <= |q| && (Has(packets, q, r, i) || HoldsNumber(packets, e, i))
    ensures Has(packets, Insert(q, j, e), r, i)
  {
    var p := Insert(q, j, e);
    if HoldsNumber(packets, e, i) {
      assert p[j] == e;
    } else if i > r {
      var k :| 0 <= k < |q| && HoldsNumber(packets, q[k], i);
      assert p[if k < j then k else k + 1] == q[k];
    }
  }

  // ---- the handlers

  /** What a handler keeps: the channel's invariant, at a number r' that has not gone back, the stream,
      and everything that the receiver ever had. */
  ghost predicate Keeps(packets: seq<Packet>, ch: Channel, r: nat, sent: nat, out: seq<Incoming>, t: Result, r': nat) {
    && r <= r' && ChannelInv(packets, t.channel, r', sent)
    && OutInv(packets, out + t.out, r', t.channel.unreliable)
    && forall i :: Has(packets, ch.reliables, r, i) ==> Has(packets, t.channel.reliables, r', i)
  }

  /** The packet of command i begins beyond the windows, so that the handlers discard the command. */
  ghost predicate OutOfReach(packets: seq<Packet>, r: nat, i: nat) {
    exists tag :: 0 <= tag < |packets| && packets[tag].Reliable() && packets[tag].first <= i <= packets[tag].last
      && Win(r) + FREE_WINDOWS - 1 <= Win(packets[tag].first)
  }

  lemma ReachNot(packets: seq<Packet>, r: nat, i: nat)
    requires OutOfReach(packets, r, i)
    ensures Win(r) + FREE_WINDOWS - 1 <= Win(i)
  {
    var tag :| 0 <= tag < |packets| && packets[tag].first <= i && Win(r) + FREE_WINDOWS - 1 <= Win(packets[tag].first);
    WinMonotone(packets[tag].first, i);
  }

  /** Command i is in the receiver's hands, or it lies beyond the windows and will not be acknowledged. */
  ghost predicate TakenOrFar(packets: seq<Packet>, t: Result, r: nat, i: nat) {
    !t.ok || OutOfReach(packets, r, i) || Has(packets, t.channel.reliables, r, i)
  }

  /** What a handler must achieve with command i. */
  ghost predicate Outcome(packets: seq<Packet>, ch: Channel, r: nat, sent: nat, out: seq<Incoming>, t: Result, i: nat) {
    exists r' :: Keeps(packets, ch, r, sent, out, t, r') && TakenOrFar(packets, t, r', i)
  }

  lemma Achieved(packets: seq<Packet>, ch: Channel, r: nat, sent: nat, out: seq<Incoming>, t: Result, i: nat, r': nat)
    requires Keeps(packets, ch, r, sent, out, t, r') && TakenOrFar(packets, t, r', i)
    ensures Outcome(packets, ch, r, sent, out, t, i)
  {
  }

  /** The command is discarded or refused. */
  lemma NothingDone(packets: seq<Packet>, ch: Channel, r: nat, sent: nat, out: seq<Incoming>, ok: bool, i: nat)
    requires Good(packets, ch, r, sent, out) && TakenOrFar(packets, Result(ok, ch, []), r, i)
    ensures Outcome(packets, ch, r, sent, out, Result(ok, ch, []), i)
  {
    hide Good, Keeps, TakenOrFar;
    Unchanged(packets, ch, r, sent, out, ok);
    Achieved(packets, ch, r, sent, out, Result(ok, ch, []), i, r);
  }

  ghost predicate Good(packets: seq<Packet>, ch: Channel, r: nat, sent: nat, out: seq<Incoming>) {
    History(packets) && ChannelInv(packets, ch, r, sent) && OutInv(packets, out, r, ch.unreliable)
  }

  lemma Unchanged(packets: seq<Packet>, ch: Channel, r: nat, sent: nat, out: seq<Incoming>, ok: bool)
    requires Good(packets, ch, r, sent, out)
    ensures Keeps(packets, ch, r, sent, out, Result(ok, ch, []), r)
  {
    hide ChannelInv, OutInv, Has;
    assert out + [] == out;
  }

  lemma DispatchGood(packets: seq<Packet>, ch: Channel, r: nat, sent: nat, out: seq<Incoming>)
    requires Good(packets, ch, r, sent, out)
    ensures var d := DispatchReliable(ch);
      Keeps(packets, ch, r, sent, out, Result(true, d.0, d.1), ReadyLast(packets, ch.reliables, r))
  {
    hide ChannelInv, OutInv, Has, History;
    DispatchReliableKeeps(packets, ch, r, sent, out);
    forall i | Has(packets, ch.reliables, r, i)
      ensures Has(packets, DispatchReliable(ch).0.reliables, ReadyLast(packets, ch.reliables, r), i)
    {
      HasAfterDispatch(packets, ch, r, sent, i);
    }
  }

  /** A reliable packet whose start the receiver's window test lets through. */
  lemma Placement(packets: seq<Packet>, ch: Channel, r: nat, sent: nat, tag: nat)
    requires History(packets) && ChannelInv(packets, ch, r, sent) && tag < |packets| && packets[tag].Reliable()
    requires packets[tag].first <= sent && Win(sent) <= Win(packets[tag].first) + OLDEST
    ensures var x := packets[tag].first;
      && (x < r ==> !InWindow(Num(x), ch.incoming))
      && (x == r ==> Num(x) == ch.incoming)
      && (x > r ==> Num(x) != ch.incoming && Win(x) < Win(r) + FREE_WINDOWS
                    && (InWindow(Num(x), ch.incoming) <==> Win(x) < Win(r) + FREE_WINDOWS - 1))
  {
    var x := packets[tag].first;
    if x < r {
      WinMonotone(r, sent);
      BehindOf(x, r);
    } else if x > r {
      WinMonotone(x, sent);
      AheadOf(x, r);
    }
  }

  lemma InsertGood(packets: seq<Packet>, ch: Channel, r: nat, sent: nat, out: seq<Incoming>, j: nat, e: Incoming)
    requires Good(packets, ch, r, sent, out) && ReliableEntry(packets, e, r, sent) && j <= |ch.reliables|
    requires (forall i :: 0 <= i < j ==> ch.reliables[i].tag < e.tag)
      && (forall i :: j <= i < |ch.reliables| ==> e.tag < ch.reliables[i].tag)
    ensures var next := ch.(reliables := Insert(ch.reliables, j, e));
      && Good(packets, next, r, sent, out)
      && (forall i :: Has(packets, ch.reliables, r, i) ==> Has(packets, next.reliables, r, i))
      && (forall i :: HoldsNumber(packets, e, i) ==> HoldsNumber(packets, next.reliables[j], i))
  {
    hide OutInv, Has, History, ReliableQueue, ReliableEntry, UnreliableSettled, HoldsNumber, Boundary;
    ReliableInserted(packets, ch.reliables, r, sent, j, e);
    forall i | Has(packets, ch.reliables, r, i) ensures Has(packets, Insert(ch.reliables, j, e), r, i) {
      HasAfterInsert(packets, ch.reliables, r, j, e, i);
    }
  }

  lemma NewReliableEntry(packets: seq<Packet>, ch: Channel, r: nat, sent: nat, tag: nat, f: nat)
    requires History(packets) && ChannelInv(packets, ch, r, sent) && tag < |packets| && packets[tag].Reliable()
    requires f < packets[tag].Pieces() && r < packets[tag].first <= sent
    requires Win(packets[tag].first) < Win(r) + FREE_WINDOWS - 1
    ensures var p := packets[tag];
      p.Ok() && ReliableEntry(packets, NewIncoming(p.Wire(tag, f), Num(p.first), 0), r, sent)
  {
    hide ChannelInv;
    NumbersOrdered(packets, tag);
    hide History;
    FreshEntry(packets[tag], tag, f, Num(packets[tag].first), 0);
    NewTagged(packets[tag], tag, f, Num(packets[tag].first), 0);
  }

  lemma NewTagged(p: Packet, tag: nat, f: nat, n: uint16, u: uint16)
    requires p.Ok() && f < p.Pieces()
    ensures var e := NewIncoming(p.Wire(tag, f), n, u);
      && e.tag == tag && e.reliable == n && (!p.Reliable() ==> e.unreliable == u)
      && (forall k :: 0 <= k < |e.got| ==> !e.got[k])
  {
  }

  /** SEND_RELIABLE */
  lemma ReceiveReliableKeeps(packets: seq<Packet>, ch: Channel, r: nat, sent: nat, out: seq<Incoming>, tag: nat, room: bool)
    requires Good(packets, ch, r, sent, out) && tag < |packets| && packets[tag].Ok() && packets[tag].kind == SendReliable
    requires packets[tag].first <= sent && Win(sent) <= Win(packets[tag].first) + OLDEST
    ensures var t := ReceiveReliable(ch, packets[tag].Wire(tag, 0), room);
      Outcome(packets, ch, r, sent, out, t, packets[tag].first)
  {
    var p := packets[tag];
    var x, c := p.first, p.Wire(tag, 0);
    Placement(packets, ch, r, sent, tag);
    WireReliable(p, tag);
    hide InWindow, Num, Win, Keeps, History, Packet.Ok, Packet.Wire, ReliableQueue, DispatchReliable, NewIncoming, Has, Outcome;
    if r < x && InWindow(Num(x), ch.incoming) {
      var place := SearchReliable(ch.reliables, c.reliable, ch.incoming, |ch.reliables|);
      ReliablePlace(packets, ch.reliables, r, sent, tag);
      if place.At? {
        HeldAt(packets, ch, r, sent, tag, place.index);
        NothingDone(packets, ch, r, sent, out, true, x);
      } else if room {
        InsertedAndDispatched(packets, ch, r, sent, out, tag, place.index);
      } else {
        NothingDone(packets, ch, r, sent, out, false, x);
      }
    } else {
      NothingDone(packets, ch, r, sent, out, true, x);
    }
  }

  lemma WireReliable(p: Packet, tag: nat)
    requires p.Ok() && p.kind == SendReliable
    ensures p.Wire(tag, 0).reliable == Num(p.first) && p.last == p.first
  {
  }

  lemma HeldAt(packets: seq<Packet>, ch: Channel, r: nat, sent: nat, tag: nat, k: nat)
    requires ReliableQueue(packets, ch.reliables, r, sent) && k < |ch.reliables| && ch.reliables[k].tag == tag
    requires tag < |packets| && packets[tag].kind == SendReliable && packets[tag].last == packets[tag].first
    ensures HoldsNumber(packets, ch.reliables[k], packets[tag].first)
  {
  }

  lemma ReliableQueueTags(packets: seq<Packet>, q: seq<Incoming>, r: nat, sent: nat, k: nat)
    requires ReliableQueue(packets, q, r, sent) && k < |q|
    ensures ReliableEntry(packets, q[k], r, sent) && q[k].tag < |packets| && EntryOk(q[k], packets[q[k].tag])
  {
  }

  lemma InsertedAndDispatched(packets: seq<Packet>, ch: Channel, r: nat, sent: nat, out: seq<Incoming>, tag: nat, j: nat)
    requires Good(packets, ch, r, sent, out) && tag < |packets| && packets[tag].Ok() && packets[tag].kind == SendReliable
    requires r < packets[tag].first <= sent && Win(packets[tag].first) < Win(r) + FREE_WINDOWS - 1 && j <= |ch.reliables|
    requires (forall i :: 0 <= i < j ==> ch.reliables[i].tag < tag) && (forall i :: j <= i < |ch.reliables| ==> tag < ch.reliables[i].tag)
    ensures var p := packets[tag];
      var d := DispatchReliable(ch.(reliables := Insert(ch.reliables, j, NewIncoming(p.Wire(tag, 0), Num(p.first), 0))));
      Outcome(packets, ch, r, sent, out, Result(true, d.0, d.1), p.first)
  {
    var p := packets[tag];
    var e := NewIncoming(p.Wire(tag, 0), Num(p.first), 0);
    var next := ch.(reliables := Insert(ch.reliables, j, e));
    NewReliableEntry(packets, ch, r, sent, tag, 0);
    NewTagged(p, tag, 0, Num(p.first), 0);
    assert HoldsNumber(packets, e, p.first);
    hide NewIncoming, Packet.Wire, History, Packet.Ok, OutInv, ReliableEntry, HoldsNumber, DispatchReliable;
    InsertGood(packets, ch, r, sent, out, j, e);
    DispatchGood(packets, next, r, sent, out);
    hide ChannelInv;
    var d, r' := DispatchReliable(next), ReadyLast(packets, next.reliables, r);
    assert HoldsNumber(packets, next.reliables[j], p.first);
    assert Has(packets, next.reliables, r, p.first);
    assert Has(packets, d.0.reliables, r', p.first);
    Achieved(packets, ch, r, sent, out, Result(true, d.0, d.1), p.first, r');
  }

  // ---- SEND_FRAGMENT

  lemma EntriesHaveBits(packets: seq<Packet>, ch: Channel, r: nat, sent: nat)
    requires ChannelInv(packets, ch, r, sent)
    ensures BitsOk(ch.reliables) && BitsOk(ch.unreliables)
  {
    forall k | 0 <= k < |ch.reliables| ensures |ch.reliables[k].got| == ch.reliables[k].count {
      assert ReliableEntry(packets, ch.reliables[k], r, sent);
    }
    forall k | 0 <= k < |ch.unreliables| ensures |ch.unreliables[k].got| == ch.unreliables[k].count {
      assert UnreliableEntry(packets, ch.unreliables[k], r);
    }
  }

  /** Marking a fragment in the queue keeps everything and holds the fragment's number. */
  lemma MarkGood(packets: seq<Packet>, ch: Channel, r: nat, sent: nat, out: seq<Incoming>, tag: nat, f: nat, k: nat, c: Command)
    requires Good(packets, ch, r, sent, out) && k < |ch.reliables| && ch.reliables[k].tag == tag
    requires tag < |packets| && packets[tag].kind == SendFragment && Carries(c, packets[tag], f)
    requires f < |ch.reliables[k].got| && !ch.reliables[k].got[f] && packets[tag].first + f <= sent
    requires c.offset + |c.data| <= |ch.reliables[k].packet|
    ensures var next := ch.(reliables := ch.reliables[k := AddFragment(ch.reliables[k], c)]);
      && Good(packets, next, r, sent, out)
      && (forall i :: Has(packets, ch.reliables, r, i) ==> Has(packets, next.reliables, r, i))
      && Has(packets, next.reliables, r, packets[tag].first + f)
  {
    hide OutInv, History, UnreliableSettled, Boundary;
    var q, e, p := ch.reliables, ch.reliables[k], packets[tag];
    assert ReliableEntry(packets, e, r, sent);
    FragmentAdded(e, p, c, f);
    var g := AddFragment(e, c);
    assert ReliableEntry(packets, g, r, sent);
    hide ReliableEntry;
    var next := q[k := g];
    forall i: nat | Has(packets, q, r, i) ensures Has(packets, next, r, i) {
      if i > r {
        var j :| 0 <= j < |q| && HoldsNumber(packets, q[j], i);
        assert HoldsNumber(packets, next[j], i);
      }
    }
    assert HoldsNumber(packets, next[k], p.first + f);
  }

  /** A fragment of an entry in the queue. */
  lemma TakeFragmentKeeps(packets: seq<Packet>, ch: Channel, r: nat, sent: nat, out: seq<Incoming>, tag: nat, f: nat, k: nat, c: Command)
    requires Good(packets, ch, r, sent, out) && k < |ch.reliables| && ch.reliables[k].tag == tag
    requires tag < |packets| && packets[tag].kind == SendFragment && Carries(c, packets[tag], f)
    requires packets[tag].first + f <= sent
    ensures BitsOk(ch.reliables) && SamePacket(ch.reliables[k], c) && c.fragment < c.count && c.offset + |c.data| <= c.total
    ensures Outcome(packets, ch, r, sent, out, TakeFragment(ch, k, c, []), packets[tag].first + f)
  {
    hide *;
    GoodMeans(packets, ch, r, sent, out);
    EntriesHaveBits(packets, ch, r, sent);
    QueueOf(packets, ch, r, sent);
    ReliableQueueTags(packets, ch.reliables, r, sent, k);
    EntryShape(ch.reliables[k], packets[tag], c, f);
    TakeFragmentCases(packets, ch, r, sent, out, tag, f, k, c);
  }

  lemma QueueOf(packets: seq<Packet>, ch: Channel, r: nat, sent: nat)
    requires ChannelInv(packets, ch, r, sent)
    ensures ReliableQueue(packets, ch.reliables, r, sent) && ch.incoming == Num(r) && Boundary(packets, r) && r <= sent
  {
  }

  lemma TakeFragmentCases(packets: seq<Packet>, ch: Channel, r: nat, sent: nat, out: seq<Incoming>, tag: nat, f: nat, k: nat, c: Command)
    requires Good(packets, ch, r, sent, out) && k < |ch.reliables| && ch.reliables[k].tag == tag
    requires tag < |packets| && packets[tag].kind == SendFragment && Carries(c, packets[tag], f)
    requires packets[tag].first + f <= sent
    requires BitsOk(ch.reliables) && SamePacket(ch.reliables[k], c)
    requires c.fragment == f < c.count == |ch.reliables[k].got| && c.offset + |c.data| <= c.total == |ch.reliables[k].packet|
    ensures Outcome(packets, ch, r, sent, out, TakeFragment(ch, k, c, []), packets[tag].first + f)
  {
    hide ChannelInv, OutInv, DispatchReliable, Outcome, Has, AddFragment, Carries, BitsOk, SamePacket, History;
    var e, i := ch.reliables[k], packets[tag].first + f;
    CarriesCount(c, packets[tag], f);
    if e.got[f] {
      HeldFragment(packets, ch, r, tag, f, k);
      NothingDone(packets, ch, r, sent, out, true, i);
    } else {
      MarkGood(packets, ch, r, sent, out, tag, f, k, c);
      var g := AddFragment(e, c);
      MarkedDispatches(packets, ch, ch.(reliables := ch.reliables[k := g]), r, sent, out, i, g.remaining > 0);
    }
  }

  lemma CarriesCount(c: Command, p: Packet, f: nat)
    requires Carries(c, p, f)
    ensures c.count == p.Count()
  {
  }

  lemma EntryShape(e: Incoming, p: Packet, c: Command, f: nat)
    requires EntryOk(e, p) && Carries(c, p, f)
    ensures c.fragment == f < c.count == |e.got| && c.offset + |c.data| <= c.total == |e.packet| && SamePacket(e, c)
  {
  }

  lemma HeldFragment(packets: seq<Packet>, ch: Channel, r: nat, tag: nat, f: nat, k: nat)
    requires History(packets) && k < |ch.reliables| && ch.reliables[k].tag == tag && tag < |packets|
    requires packets[tag].kind == SendFragment && f < |ch.reliables[k].got| == packets[tag].Count()
    requires ch.reliables[k].got[f]
    ensures Has(packets, ch.reliables, r, packets[tag].first + f)
  {
    NumbersOrdered(packets, tag);
    assert HoldsNumber(packets, ch.reliables[k], packets[tag].first + f);
  }

  /** After the mark: a packet that is complete now starts a dispatch. */
  lemma MarkedDispatches(packets: seq<Packet>, ch: Channel, next: Channel, r: nat, sent: nat, out: seq<Incoming>, i: nat, missing: bool)
    requires Good(packets, next, r, sent, out) && Has(packets, next.reliables, r, i)
    requires forall j: nat :: Has(packets, ch.reliables, r, j) ==> Has(packets, next.reliables, r, j)
    ensures var d := DispatchReliable(next);
      Outcome(packets, ch, r, sent, out, if missing then Result(true, next, []) else Result(true, d.0, [] + d.1), i)
  {
    hide Good, Has, ChannelInv, OutInv, DispatchReliable, Outcome;
    if missing {
      Unchanged(packets, next, r, sent, out, true);
      Achieved(packets, ch, r, sent, out, Result(true, next, []), i, r);
    } else {
      DispatchGood(packets, next, r, sent, out);
      GoodMeans(packets, next, r, sent, out);
      HasAfterDispatch(packets, next, r, sent, i);
      var d, r' := DispatchReliable(next), ReadyLast(packets, next.reliables, r);
      assert [] + d.1 == d.1;
      Achieved(packets, ch, r, sent, out, Result(true, d.0, d.1), i, r');
    }
  }

  lemma GoodMeans(packets: seq<Packet>, ch: Channel, r: nat, sent: nat, out: seq<Incoming>)
    requires Good(packets, ch, r, sent, out)
    ensures History(packets) && ChannelInv(packets, ch, r, sent)
  {
  }

  /** A second handling continues the first. */
  lemma KeepsCompose(packets: seq<Packet>, ch: Channel, r: nat, sent: nat, out: seq<Incoming>, a: Result, r1: nat, b: Result, i: nat)
    requires Keeps(packets, ch, r, sent, out, a, r1) && Outcome(packets, a.channel, r1, sent, out + a.out, b, i)
    ensures Outcome(packets, ch, r, sent, out, Result(b.ok, b.channel, a.out + b.out), i)
  {
    hide ChannelInv, OutInv, Has;
    var r' :| Keeps(packets, a.channel, r1, sent, out + a.out, b, r') && TakenOrFar(packets, b, r', i);
    assert out + (a.out + b.out) == out + a.out + b.out;
    Achieved(packets, ch, r, sent, out, Result(b.ok, b.channel, a.out + b.out), i, r');
  }

  /** A fragment of a packet that is not in the queue yet. */
  lemma FirstFragmentKeeps(packets: seq<Packet>, ch: Channel, r: nat, sent: nat, out: seq<Incoming>, tag: nat, f: nat, j: nat, c: Command)
    requires Good(packets, ch, r, sent, out) && tag < |packets| && packets[tag].Ok() && packets[tag].kind == SendFragment
    requires f < packets[tag].Count() && packets[tag].first + f <= sent && c == packets[tag].Wire(tag, f)
    requires r < packets[tag].first && Win(packets[tag].first) < Win(r) + FREE_WINDOWS - 1 && j <= |ch.reliables|
    requires (forall i :: 0 <= i < j ==> ch.reliables[i].tag < tag) && (forall i :: j <= i < |ch.reliables| ==> tag < ch.reliables[i].tag)
    ensures BitsOk(ch.reliables) && c.kind == SendFragment && c.fragment < c.count && c.offset + |c.data| <= c.total
    ensures Outcome(packets, ch, r, sent, out, QueueFragment(ch, j, c), packets[tag].first + f)
  {
    var p := packets[tag];
    hide *;
    GoodMeans(packets, ch, r, sent, out);
    EntriesHaveBits(packets, ch, r, sent);
    IsFragmented(p);
    WireFragment(p, tag, f);
    ClearFragment(p, tag, f);
    NewReliableEntry(packets, ch, r, sent, tag, f);
    NewTagged(p, tag, f, Num(p.first), 0);
    FreshEntry(p, tag, f, Num(p.first), 0);
    var e := NewIncoming(c, Num(p.first), 0);
    var q := Insert(ch.reliables, j, e);
    InsertedAt(ch.reliables, j, e);
    InsertGood(packets, ch, r, sent, out, j, e);
    DispatchGood(packets, ch.(reliables := q), r, sent, out);
    NewEntryStays(ch, q, j);
    FirstFragmentTaken(packets, ch, r, sent, out, tag, f, j, c, q);
  }

  lemma FirstFragmentTaken(packets: seq<Packet>, ch: Channel, r: nat, sent: nat, out: seq<Incoming>, tag: nat, f: nat,
                           j: nat, c: Command, q: seq<Incoming>)
    requires History(packets) && tag < |packets| && packets[tag].kind == SendFragment && Carries(c, packets[tag], f)
    requires packets[tag].first + f <= sent && BitsOk(ch.reliables) && j <= |ch.reliables|
    requires c.kind == SendFragment && c.fragment < c.count && c.offset + |c.data| <= c.total
    requires q == Insert(ch.reliables, j, NewIncoming(c, c.start, 0)) && j < |q| && q[j].tag == tag
    requires var n, d := ReadyCount(q, ch.incoming), DispatchReliable(ch.(reliables := q));
      && n <= j && j - n < |d.0.reliables| && d.0.reliables[j - n] == q[j]
      && Keeps(packets, ch.(reliables := q), r, sent, out, Result(true, d.0, d.1), ReadyLast(packets, q, r))
    requires forall i: nat :: Has(packets, ch.reliables, r, i) ==> Has(packets, q, r, i)
    ensures Outcome(packets, ch, r, sent, out, QueueFragment(ch, j, c), packets[tag].first + f)
  {
    hide *;
    var n, d, r1 := ReadyCount(q, ch.incoming), DispatchReliable(ch.(reliables := q)), ReadyLast(packets, q, r);
    var first, k, i := Result(true, d.0, d.1), j - n, packets[tag].first + f;
    KeptGood(packets, ch, ch.(reliables := q), r, sent, out, first, r1);
    TakeFragmentKeeps(packets, d.0, r1, sent, out + d.1, tag, f, k, c);
    KeepsCompose(packets, ch, r, sent, out, first, r1, TakeFragment(d.0, k, c, []), i);
    QueueFragmentSteps(ch, j, c);
  }

  lemma IsFragmented(p: Packet)
    requires p.kind == SendFragment
    ensures p.Fragmented() && p.Reliable() && (p.Count() > 0 ==> p.Pieces() == p.Count())
    ensures p.Ok() ==> p.last == p.first + p.Pieces() - 1 && p.Count() >= 2
  {
    if p.Ok() {
      var n := |p.data| + p.size - 1;
      MulMonotone(1, p.size, n + 1);
      QuotientBetween(n, p.size, 2, n + 1);
    }
  }

  lemma InsertedAt(q: seq<Incoming>, j: nat, e: Incoming)
    requires j <= |q|
    ensures |Insert(q, j, e)| == |q| + 1 && Insert(q, j, e)[j] == e
  {
  }

  lemma KeptGood(packets: seq<Packet>, ch: Channel, next: Channel, r: nat, sent: nat, out: seq<Incoming>, t: Result, r1: nat)
    requires History(packets) && Keeps(packets, next, r, sent, out, t, r1)
    requires forall i: nat :: Has(packets, ch.reliables, r, i) ==> Has(packets, next.reliables, r, i)
    ensures Good(packets, t.channel, r1, sent, out + t.out) && Keeps(packets, ch, r, sent, out, t, r1)
  {
    hide ChannelInv, OutInv, Has, History;
  }

  lemma WireFragment(p: Packet, tag: nat, f: nat)
    requires p.Ok() && p.kind == SendFragment && f < p.Pieces()
    ensures var c := p.Wire(tag, f); c.kind == SendFragment && c.start == Num(p.first)
  {
  }

  /** A fragment at or behind the channel's number is one of a packet that was dispatched. */
  lemma BehindIsDone(packets: seq<Packet>, ch: Channel, r: nat, sent: nat, tag: nat, f: nat)
    requires ChannelInv(packets, ch, r, sent) && tag < |packets| && packets[tag].Ok() && packets[tag].kind == SendFragment
    requires f < packets[tag].Count() && packets[tag].first <= r
    ensures packets[tag].first != r && packets[tag].first + f <= r
  {
    hide History, ReliableQueue, UnreliableSettled;
    IsFragmented(packets[tag]);
  }

  lemma FarFragment(packets: seq<Packet>, t: Result, r: nat, tag: nat, f: nat)
    requires tag < |packets| && packets[tag].Ok() && packets[tag].kind == SendFragment && f < packets[tag].Pieces()
    requires Win(packets[tag].first) >= Win(r) + FREE_WINDOWS - 1
    ensures TakenOrFar(packets, t, r, packets[tag].first + f)
  {
    IsFragmented(packets[tag]);
  }

  /** SEND_FRAGMENT */
  lemma ReceiveFragmentKeeps(packets: seq<Packet>, ch: Channel, r: nat, sent: nat, out: seq<Incoming>, tag: nat, f: nat,
                             room: bool, maximumPacketSize: nat)
    requires Good(packets, ch, r, sent, out) && BitsOk(ch.reliables) && tag < |packets|
    requires packets[tag].Ok() && packets[tag].kind == SendFragment
    requires f < packets[tag].Count() && packets[tag].first + f <= sent && Win(sent) <= Win(packets[tag].first) + OLDEST
    ensures packets[tag].Wire(tag, f).kind == SendFragment
    ensures var t := ReceiveFragment(ch, packets[tag].Wire(tag, f), room, maximumPacketSize);
      Outcome(packets, ch, r, sent, out, t, packets[tag].first + f)
  {
    var p := packets[tag];
    hide *;
    GoodMeans(packets, ch, r, sent, out);
    IsFragmented(p);
    WireFragment(p, tag, f);
    Placement(packets, ch, r, sent, tag);
    if p.first <= r {
      BehindIsDone(packets, ch, r, sent, tag, f);
      FragmentIgnored(packets, ch, r, sent, out, tag, f, room, maximumPacketSize);
    } else if !InWindow(Num(p.first), ch.incoming) {
      FragmentIgnored(packets, ch, r, sent, out, tag, f, room, maximumPacketSize);
    } else {
      QueueOf(packets, ch, r, sent);
      ReliablePlace(packets, ch.reliables, r, sent, tag);
      FragmentPlaced(packets, ch, r, sent, out, tag, f, room, maximumPacketSize);
    }
  }

  lemma FragmentIgnored(packets: seq<Packet>, ch: Channel, r: nat, sent: nat, out: seq<Incoming>, tag: nat, f: nat,
                        room: bool, maximumPacketSize: nat)
    requires Good(packets, ch, r, sent, out) && BitsOk(ch.reliables) && tag < |packets|
    requires packets[tag].Ok() && packets[tag].kind == SendFragment && f < packets[tag].Pieces()
    requires packets[tag].Wire(tag, f).kind == SendFragment && packets[tag].Wire(tag, f).start == Num(packets[tag].first)
    requires !InWindow(Num(packets[tag].first), ch.incoming)
    requires packets[tag].first + f <= r || Win(packets[tag].first) >= Win(r) + FREE_WINDOWS - 1
    ensures var t := ReceiveFragment(ch, packets[tag].Wire(tag, f), room, maximumPacketSize);
      Outcome(packets, ch, r, sent, out, t, packets[tag].first + f)
  {
    hide Good, Outcome, Packet.Ok, Packet.Wire, InWindow, BitsOk, SearchReliable, Num, Win;
    if packets[tag].first + f > r {
      FarFragment(packets, Result(true, ch, []), r, tag, f);
    }
    NothingDone(packets, ch, r, sent, out, true, packets[tag].first + f);
  }

  lemma FragmentPlaced(packets: seq<Packet>, ch: Channel, r: nat, sent: nat, out: seq<Incoming>, tag: nat, f: nat,
                       room: bool, maximumPacketSize: nat)
    requires Good(packets, ch, r, sent, out) && BitsOk(ch.reliables) && tag < |packets|
    requires packets[tag].Ok() && packets[tag].kind == SendFragment
    requires f < packets[tag].Count() == packets[tag].Pieces() && packets[tag].first + f <= sent
    requires packets[tag].Wire(tag, f).kind == SendFragment && packets[tag].Wire(tag, f).start == Num(packets[tag].first)
    requires r < packets[tag].first && Win(packets[tag].first) < Win(r) + FREE_WINDOWS - 1
    requires InWindow(Num(packets[tag].first), ch.incoming) && Num(packets[tag].first) != ch.incoming
    requires var g := SearchReliable(ch.reliables, Num(packets[tag].first), ch.incoming, |ch.reliables|);
      if g.At? then ch.reliables[g.index].tag == tag
      else (forall i :: 0 <= i < g.index ==> ch.reliables[i].tag < tag)
           && (forall i :: g.index <= i < |ch.reliables| ==> tag < ch.reliables[i].tag)
    ensures var t := ReceiveFragment(ch, packets[tag].Wire(tag, f), room, maximumPacketSize);
      Outcome(packets, ch, r, sent, out, t, packets[tag].first + f)
  {
    var p := packets[tag];
    var c := p.Wire(tag, f);
    var place := SearchReliable(ch.reliables, Num(p.first), ch.incoming, |ch.reliables|);
    hide *;
    ClearFragment(p, tag, f);
    if !FragmentFits(c, maximumPacketSize) || (!place.At? && !room) {
      Refused(packets, ch, r, sent, out, p.first + f);
      assert ReceiveFragment(ch, c, room, maximumPacketSize) == Result(false, ch, []) by {
        RefusesFragment(ch, c, room, maximumPacketSize);
      }
    } else if place.At? {
      TakeFragmentKeeps(packets, ch, r, sent, out, tag, f, place.index, c);
      TakesFragment(ch, c, room, maximumPacketSize);
    } else {
      FirstFragmentKeeps(packets, ch, r, sent, out, tag, f, place.index, c);
      QueuesFragment(ch, c, room, maximumPacketSize);
    }
  }

  lemma ClearFragment(p: Packet, tag: nat, f: nat)
    requires p.Ok() && p.kind == SendFragment && f < p.Pieces() == p.Count()
    ensures Carries(p.Wire(tag, f), p, f)
    ensures var c := p.Wire(tag, f); c.fragment < c.count && c.offset + |c.data| <= c.total
  {
    WireCarries(p, tag, f);
  }

  lemma RefusesFragment(ch: Channel, c: Command, room: bool, maximumPacketSize: nat)
    requires BitsOk(ch.reliables) && c.kind == SendFragment && InWindow(c.start, ch.incoming)
    requires !FragmentFits(c, maximumPacketSize)
      || (!SearchReliable(ch.reliables, c.start, ch.incoming, |ch.reliables|).At? && !room)
    ensures ReceiveFragment(ch, c, room, maximumPacketSize) == Result(false, ch, [])
  {
    hide InWindow, SearchReliable, QueueFragment, TakeFragment;
  }

  lemma TakesFragment(ch: Channel, c: Command, room: bool, maximumPacketSize: nat)
    requires BitsOk(ch.reliables) && c.kind == SendFragment && InWindow(c.start, ch.incoming)
    requires FragmentFits(c, maximumPacketSize)
    requires c.fragment < c.count && c.offset + |c.data| <= c.total
    requires var place := SearchReliable(ch.reliables, c.start, ch.incoming, |ch.reliables|);
      place.At? && SamePacket(ch.reliables[place.index], c)
    ensures var place := SearchReliable(ch.reliables, c.start, ch.incoming, |ch.reliables|);
      ReceiveFragment(ch, c, room, maximumPacketSize) == TakeFragment(ch, place.index, c, [])
  {
    hide InWindow, SearchReliable, QueueFragment, TakeFragment;
  }

  lemma QueuesFragment(ch: Channel, c: Command, room: bool, maximumPacketSize: nat)
    requires BitsOk(ch.reliables) && c.kind == SendFragment && InWindow(c.start, ch.incoming)
    requires FragmentFits(c, maximumPacketSize) && c.start != ch.incoming && room
    requires c.fragment < c.count && c.offset + |c.data| <= c.total
    requires !SearchReliable(ch.reliables, c.start, ch.incoming, |ch.reliables|).At?
    ensures var place := SearchReliable(ch.reliables, c.start, ch.incoming, |ch.reliables|);
      ReceiveFragment(ch, c, room, maximumPacketSize) == QueueFragment(ch, place.index, c)
  {
    hide InWindow, SearchReliable, QueueFragment, TakeFragment;
  }

  lemma Refused(packets: seq<Packet>, ch: Channel, r: nat, sent: nat, out: seq<Incoming>, i: nat)
    requires Good(packets, ch, r, sent, out)
    ensures Outcome(packets, ch, r, sent, out, Result(false, ch, []), i)
  {
    hide Good, Outcome;
    NothingDone(packets, ch, r, sent, out, false, i);
  }

  // ---- SEND_UNRELIABLE and SEND_UNRELIABLE_FRAGMENT

  /** What the window test makes of an unreliable command that is not too old or too early. */
  lemma UnreliableReach(x: nat, r: nat, sent: nat)
    requires r <= sent && Win(sent) < Win(r) + FREE_WINDOWS && Win(x) <= Win(sent) + FARTHEST && Win(sent) <= Win(x) + OLDEST
    ensures InWindow(Num(x), Num(r)) <==> r <= x && Win(x) < Win(r) + FREE_WINDOWS - 1
    ensures Num(x) == Num(r) <==> x == r
  {
    WinMonotone(r, sent);
    if x < r {
      BehindOf(x, r);
    } else {
      AheadOf(x, r);
    }
  }

  lemma SettledOrder(packets: seq<Packet>, q: seq<Incoming>, r: nat)
    requires History(packets) && UnreliableSettled(packets, q, r)
    ensures forall k :: 0 <= k < |q| ==> q[k].tag < |packets|
    ensures Numbered(q, Firsts(packets, q), r)
    ensures var xs := Firsts(packets, q);
      forall i, j :: 0 <= i < j < |q| ==> Below(xs[i], q[i].unreliable, xs[j], q[j].unreliable)
  {
    hide EntryOk, History, Num;
    forall k | 0 <= k < |q| ensures UnreliableEntry(packets, q[k], r) && Waiting(packets, q[k], r) {
    }
    var xs := Firsts(packets, q);
    forall i, j | 0 <= i < j < |q| ensures Below(xs[i], q[i].unreliable, xs[j], q[j].unreliable) {
      SameNumbers(packets, q[i].tag, q[j].tag);
    }
  }

  lemma UnreliablePlace(packets: seq<Packet>, q: seq<Incoming>, r: nat, tag: nat)
    requires History(packets) && UnreliableSettled(packets, q, r) && tag < |packets| && !packets[tag].Reliable()
    requires r <= packets[tag].first && Win(packets[tag].first) < Win(r) + WINDOWS && packets[tag].unreliable < SPACE
    ensures var f := SearchUnreliable(q, Num(packets[tag].first), packets[tag].unreliable, Num(r), |q|);
      if f.At? then q[f.index].tag == tag
      else (forall i :: 0 <= i < f.index ==> q[i].tag < tag) && (forall i :: f.index <= i < |q| ==> tag < q[i].tag)
  {
    hide EntryOk, History, Num, SearchUnreliable;
    var x, u := packets[tag].first, packets[tag].unreliable;
    SettledOrder(packets, q, r);
    var xs := Firsts(packets, q);
    SearchUnreliableFinds(q, xs, x, u, r, |q|);
    forall k | 0 <= k < |q|
      ensures Below(xs[k], q[k].unreliable, x, u) ==> q[k].tag < tag
      ensures Below(x, u, xs[k], q[k].unreliable) ==> tag < q[k].tag
      ensures xs[k] == x && q[k].unreliable == u ==> q[k].tag == tag
    {
      assert UnreliableEntry(packets, q[k], r);
      SameNumbers(packets, q[k].tag, tag);
      SameNumbers(packets, tag, q[k].tag);
    }
  }

  lemma UnreliableInserted(packets: seq<Packet>, q: seq<Incoming>, r: nat, iu: nat, j: nat, e: Incoming)
    requires UnreliableSettled(packets, q, r) && UnreliableEntry(packets, e, r) && j <= |q|
    requires packets[e.tag].first == r && e.remaining == 0 ==> e.unreliable > iu
    requires (forall i :: 0 <= i < j ==> q[i].tag < e.tag) && (forall i :: j <= i < |q| ==> e.tag < q[i].tag)
    ensures UnreliableQueue(packets, Insert(q, j, e), r, iu)
    ensures Waiting(packets, e, r) ==> UnreliableSettled(packets, Insert(q, j, e), r)
  {
    hide UnreliableEntry;
  }

  lemma NewUnreliableEntry(packets: seq<Packet>, tag: nat, f: nat, r: nat)
    requires History(packets) && tag < |packets| && !packets[tag].Reliable() && packets[tag].Ok()
    requires f < packets[tag].Pieces() && r <= packets[tag].first && Win(packets[tag].first) < Win(r) + FREE_WINDOWS - 1
    ensures var p := packets[tag];
      UnreliableEntry(packets, NewIncoming(p.Wire(tag, f), Num(p.first), p.unreliable), r)
  {
    var p := packets[tag];
    hide History;
    FreshEntry(p, tag, f, Num(p.first), p.unreliable);
    NewTagged(p, tag, f, Num(p.first), p.unreliable);
    hide EntryOk, NewIncoming, Packet.Ok, Packet.Wire, Num, Win;
  }

  lemma UnreliableDispatched(packets: seq<Packet>, ch: Channel, r: nat, sent: nat, out: seq<Incoming>, q: seq<Incoming>, queued: int)
    requires Good(packets, ch, r, sent, out) && UnreliableQueue(packets, q, r, ch.unreliable)
    requires 0 <= queued < |q| ==> !Behind(packets, q[queued], r)
    ensures var d := DispatchUnreliable(ch.(unreliables := q), queued);
      Keeps(packets, ch, r, sent, out, Result(true, d.0, d.1), r)
  {
    hide History, UnreliableQueue, UnreliableSettled, OutInv, DispatchUnreliable, TagsAscend, UnreliableEntry, Due, Has,
      Behind, Num, Win, ReliableQueue, Boundary;
    DispatchUnreliableKeeps(packets, ch.(unreliables := q), r, queued);
    OutGrowsUnreliable(packets, out, DispatchUnreliable(ch.(unreliables := q), queued).1, r, ch.unreliable);
  }

  lemma UnreliableOutcome(packets: seq<Packet>, ch: Channel, r: nat, sent: nat, out: seq<Incoming>, t: Result)
    requires Keeps(packets, ch, r, sent, out, t, r)
    ensures Outcome(packets, ch, r, sent, out, t, 0)
  {
    hide Keeps;
    Achieved(packets, ch, r, sent, out, t, 0, r);
  }

  lemma Discarded(packets: seq<Packet>, ch: Channel, r: nat, sent: nat, out: seq<Incoming>, ok: bool)
    requires Good(packets, ch, r, sent, out)
    ensures Outcome(packets, ch, r, sent, out, Result(ok, ch, []), 0)
  {
    hide Good, Outcome;
    NothingDone(packets, ch, r, sent, out, ok, 0);
  }

  lemma WireUnreliable(p: Packet, tag: nat, f: nat)
    requires p.Ok() && !p.Reliable() && f < p.Pieces()
    ensures var c := p.Wire(tag, f); c.kind == p.kind && c.reliable == Num(p.first) && c.start == p.unreliable < SPACE
  {
  }

  lemma SettledOf(packets: seq<Packet>, ch: Channel, r: nat, sent: nat)
    requires ChannelInv(packets, ch, r, sent)
    ensures UnreliableSettled(packets, ch.unreliables, r) && ch.incoming == Num(r) && r <= sent && Win(sent) < Win(r) + FREE_WINDOWS
  {
  }

  lemma UnreliableQueued(packets: seq<Packet>, ch: Channel, r: nat, sent: nat, out: seq<Incoming>, tag: nat, j: nat)
    requires Good(packets, ch, r, sent, out) && tag < |packets| && packets[tag].Ok() && packets[tag].kind == SendUnreliable
    requires r <= packets[tag].first && Win(packets[tag].first) < Win(r) + FREE_WINDOWS - 1 && j <= |ch.unreliables|
    requires packets[tag].first == r ==> packets[tag].unreliable > ch.unreliable
    requires (forall i :: 0 <= i < j ==> ch.unreliables[i].tag < tag) && (forall i :: j <= i < |ch.unreliables| ==> tag < ch.unreliables[i].tag)
    ensures var p := packets[tag];
      var e := NewIncoming(p.Wire(tag, 0), Num(p.first), p.unreliable);
      var d := DispatchUnreliable(ch.(unreliables := Insert(ch.unreliables, j, e)), j);
      Outcome(packets, ch, r, sent, out, Result(true, d.0, d.1), 0)
  {
    hide *;
    var p := packets[tag];
    UnreliableKind(p);
    WireUnreliable(p, tag, 0);
    var e := NewIncoming(p.Wire(tag, 0), Num(p.first), p.unreliable);
    GoodMeans(packets, ch, r, sent, out);
    SettledOf(packets, ch, r, sent);
    NewUnreliableEntry(packets, tag, 0, r);
    NewTagged(p, tag, 0, Num(p.first), p.unreliable);
    UnreliableInserted(packets, ch.unreliables, r, ch.unreliable, j, e);
    InsertedAt(ch.unreliables, j, e);
    NotBehind(packets, e, r);
    UnreliableDispatched(packets, ch, r, sent, out, Insert(ch.unreliables, j, e), j);
    var d := DispatchUnreliable(ch.(unreliables := Insert(ch.unreliables, j, e)), j);
    UnreliableOutcome(packets, ch, r, sent, out, Result(true, d.0, d.1));
  }

  lemma UnreliableKind(p: Packet)
    ensures !p.Reliable() <==> p.kind == SendUnreliable || p.kind == SendUnreliableFragment
    ensures p.Fragmented() <==> p.kind == SendFragment || p.kind == SendUnreliableFragment
  {
  }

  lemma NotBehind(packets: seq<Packet>, e: Incoming, r: nat)
    requires e.tag < |packets| && packets[e.tag].first >= r
    ensures !Behind(packets, e, r)
  {
  }

  /** SEND_UNRELIABLE */
  lemma ReceiveUnreliableKeeps(packets: seq<Packet>, ch: Channel, r: nat, sent: nat, out: seq<Incoming>, tag: nat, room: bool)
    requires Good(packets, ch, r, sent, out) && tag < |packets| && packets[tag].Ok() && packets[tag].kind == SendUnreliable
    requires Win(packets[tag].first) <= Win(sent) + FARTHEST && Win(sent) <= Win(packets[tag].first) + OLDEST
    ensures Outcome(packets, ch, r, sent, out, ReceiveUnreliable(ch, packets[tag].Wire(tag, 0), room), 0)
  {
    var p := packets[tag];
    var x, c := p.first, p.Wire(tag, 0);
    GoodMeans(packets, ch, r, sent, out);
    SettledOf(packets, ch, r, sent);
    UnreliableKind(p);
    WireUnreliable(p, tag, 0);
    UnreliableReach(x, r, sent);
    Discarded(packets, ch, r, sent, out, true);
    Discarded(packets, ch, r, sent, out, false);
    hide *;
    if InWindow(c.reliable, ch.incoming) {
      UnreliablePlace(packets, ch.unreliables, r, tag);
      var place := SearchUnreliable(ch.unreliables, c.reliable, c.start, ch.incoming, |ch.unreliables|);
      if !(c.reliable == ch.incoming && c.start <= ch.unreliable) && !place.At? && room {
        UnreliableQueued(packets, ch, r, sent, out, tag, place.index);
      }
    }
    UnreliableCases(ch, c, room);
  }

  /** The handler's branches. */
  lemma UnreliableCases(ch: Channel, c: Command, room: bool)
    ensures var place := SearchUnreliable(ch.unreliables, c.reliable, c.start, ch.incoming, |ch.unreliables|);
      var t := ReceiveUnreliable(ch, c, room);
      if !InWindow(c.reliable, ch.incoming) || (c.reliable == ch.incoming && c.start <= ch.unreliable) || place.At? || !room then
        t == Result(true, ch, []) || t == Result(false, ch, [])
      else
        var d := DispatchUnreliable(ch.(unreliables := Insert(ch.unreliables, place.index, NewIncoming(c, c.reliable, c.start))),
                                    place.index);
        t == Result(true, d.0, d.1)
  {
    hide SearchUnreliable, DispatchUnreliable, InWindow, NewIncoming;
  }

  /** Nothing is due in a settled queue, so a walk over it moves nothing. */
  lemma {:induction false} ScanIdle(q: seq<Incoming>, incoming: uint16, s: Scan)
    requires ScanOk(q, s) && s.start == s.current && s.moved == []
    requires forall k :: 0 <= k < |q| ==> (q[k].reliable == incoming && q[k].remaining > 0) || (q[k].reliable != incoming && InWindow(q[k].reliable, incoming))
    ensures var t := ScanAll(q, incoming, s);
      t.start == t.current && t.moved == [] && t.unreliable == s.unreliable
    decreases |q| - s.current
  {
    hide InWindow;
    if s.current < |q| && q[s.current].reliable == incoming {
      ScanIdle(q, incoming, ScanTurn(q, incoming, s));
    }
  }

  lemma IdleDispatch(packets: seq<Packet>, ch: Channel, r: nat, queued: int)
    requires ch.incoming == Num(r) && UnreliableSettled(packets, ch.unreliables, r)
    ensures var d := DispatchUnreliable(ch, queued);
      d.1 == [] && d.0.unreliable == ch.unreliable
  {
    hide InWindow, EntryOk, Num, Win, ScanAll, Kept, TagsAscend;
    var q := ch.unreliables;
    forall k | 0 <= k < |q|
      ensures (q[k].reliable == ch.incoming && q[k].remaining > 0) || (q[k].reliable != ch.incoming && InWindow(q[k].reliable, ch.incoming))
    {
      assert UnreliableEntry(packets, q[k], r) && Waiting(packets, q[k], r);
      WalkTests(packets, q[k], r);
    }
    ScanIdle(q, ch.incoming, Scan(0, 0, 0, ch.unreliable, [], []));
  }

  /** A fragment added to its entry in a settled queue; if it was the last one missing, the entry is due. */
  lemma MarkUnreliable(packets: seq<Packet>, q: seq<Incoming>, r: nat, iu: nat, tag: nat, f: nat, k: nat, c: Command)
    requires UnreliableSettled(packets, q, r) && k < |q| && q[k].tag == tag
    requires tag < |packets| && packets[tag].kind == SendUnreliableFragment && Carries(c, packets[tag], f)
    requires packets[tag].first == r ==> packets[tag].unreliable > iu
    requires f < |q[k].got| && !q[k].got[f] && c.offset + |c.data| <= |q[k].packet|
    ensures var g := AddFragment(q[k], c);
      && UnreliableQueue(packets, q[k := g], r, iu)
      && (g.remaining > 0 ==> UnreliableSettled(packets, q[k := g], r))
  {
    var e := q[k];
    assert UnreliableEntry(packets, e, r) && Waiting(packets, e, r);
    FragmentAdded(e, packets[tag], c, f);
    var g := AddFragment(e, c);
    assert UnreliableEntry(packets, g, r);
    hide UnreliableEntry;
  }

  lemma TakeUnreliableKeeps(packets: seq<Packet>, ch: Channel, r: nat, sent: nat, out: seq<Incoming>, tag: nat, f: nat, k: nat, c: Command)
    requires Good(packets, ch, r, sent, out) && k < |ch.unreliables| && ch.unreliables[k].tag == tag
    requires tag < |packets| && packets[tag].kind == SendUnreliableFragment && Carries(c, packets[tag], f)
    requires packets[tag].first == r ==> packets[tag].unreliable > ch.unreliable
    ensures c.fragment < c.count && c.offset + |c.data| <= c.total && SamePacket(ch.unreliables[k], c) && |ch.unreliables[k].got| == c.count
    ensures Outcome(packets, ch, r, sent, out, TakeUnreliableFragment(ch, k, c, []), 0)
  {
    hide *;
    GoodMeans(packets, ch, r, sent, out);
    SettledOf(packets, ch, r, sent);
    var e := ch.unreliables[k];
    SettledEntry(packets, ch.unreliables, r, k);
    EntryShape(e, packets[tag], c, f);
    CarriesFragment(c, packets[tag], f);
    TakeUnreliableIs(ch, k, c);
    if e.got[f] {
      Discarded(packets, ch, r, sent, out, true);
    } else {
      MarkUnreliable(packets, ch.unreliables, r, ch.unreliable, tag, f, k, c);
      var q := ch.unreliables[k := AddFragment(e, c)];
      if AddFragment(e, c).remaining > 0 {
        Requeued(packets, ch, r, sent, out, q);
        UnreliableOutcome(packets, ch, r, sent, out, Result(true, ch.(unreliables := q), []));
      } else {
        UnreliableDispatched(packets, ch, r, sent, out, q, -1);
        var d := DispatchUnreliable(ch.(unreliables := q), -1);
        UnreliableOutcome(packets, ch, r, sent, out, Result(true, d.0, d.1));
      }
    }
  }

  lemma SettledEntry(packets: seq<Packet>, q: seq<Incoming>, r: nat, k: nat)
    requires UnreliableSettled(packets, q, r) && k < |q|
    ensures q[k].tag < |packets| && EntryOk(q[k], packets[q[k].tag])
  {
  }

  lemma CarriesFragment(c: Command, p: Packet, f: nat)
    requires Carries(c, p, f)
    ensures c.fragment == f
  {
  }

  lemma Requeued(packets: seq<Packet>, ch: Channel, r: nat, sent: nat, out: seq<Incoming>, q: seq<Incoming>)
    requires Good(packets, ch, r, sent, out) && UnreliableSettled(packets, q, r)
    ensures Keeps(packets, ch, r, sent, out, Result(true, ch.(unreliables := q), []), r)
  {
    hide OutInv, Has, History, UnreliableSettled;
    assert out + [] == out;
  }

  lemma TakeUnreliableIs(ch: Channel, k: nat, c: Command)
    requires c.fragment < c.count && c.offset + |c.data| <= c.total && k < |ch.unreliables|
    requires SamePacket(ch.unreliables[k], c) && |ch.unreliables[k].got| == c.count
    ensures var t, e := TakeUnreliableFragment(ch, k, c, []), ch.unreliables[k];
      if e.got[c.fragment] then t == Result(true, ch, [])
      else
        var next := ch.(unreliables := ch.unreliables[k := AddFragment(e, c)]);
        var d := DispatchUnreliable(next, -1);
        t == if AddFragment(e, c).remaining > 0 then Result(true, next, []) else Result(true, d.0, d.1)
  {
    hide DispatchUnreliable, AddFragment;
    var next := ch.(unreliables := ch.unreliables[k := AddFragment(ch.unreliables[k], c)]);
    assert [] + DispatchUnreliable(next, -1).1 == DispatchUnreliable(next, -1).1;
  }

  /** The first fragment of an unreliable packet. */
  lemma FirstUnreliableKeeps(packets: seq<Packet>, ch: Channel, r: nat, sent: nat, out: seq<Incoming>, tag: nat, f: nat, j: nat, c: Command)
    requires Good(packets, ch, r, sent, out) && tag < |packets| && packets[tag].Ok()
    requires packets[tag].kind == SendUnreliableFragment && f < packets[tag].Count() == packets[tag].Pieces()
    requires c == packets[tag].Wire(tag, f)
    requires r <= packets[tag].first && Win(packets[tag].first) < Win(r) + FREE_WINDOWS - 1 && j <= |ch.unreliables|
    requires packets[tag].first == r ==> packets[tag].unreliable > ch.unreliable
    requires (forall i :: 0 <= i < j ==> ch.unreliables[i].tag < tag) && (forall i :: j <= i < |ch.unreliables| ==> tag < ch.unreliables[i].tag)
    ensures c.kind == SendUnreliableFragment && c.fragment < c.count && c.offset + |c.data| <= c.total
    ensures Outcome(packets, ch, r, sent, out, QueueUnreliableFragment(ch, j, c), 0)
  {
    hide *;
    var p := packets[tag];
    UnreliableKind(p);
    WireUnreliable(p, tag, f);
    var e := NewIncoming(c, c.reliable, c.start);
    var q := Insert(ch.unreliables, j, e);
    GoodMeans(packets, ch, r, sent, out);
    SettledOf(packets, ch, r, sent);
    NewUnreliableEntry(packets, tag, f, r);
    NewTagged(p, tag, f, Num(p.first), p.unreliable);
    FreshEntry(p, tag, f, Num(p.first), p.unreliable);
    WireCarries(p, tag, f);
    CarriedBounds(c, p, f);
    WaitsForFragments(packets, e, r);
    UnreliableInserted(packets, ch.unreliables, r, ch.unreliable, j, e);
    InsertedAt(ch.unreliables, j, e);
    NotBehind(packets, e, r);
    var next := ch.(unreliables := q);
    UnreliableDispatched(packets, ch, r, sent, out, q, j);
    IdleDispatch(packets, next, r, j);
    QueuedStays(next, j);
    var d, k := DispatchUnreliable(next, j), PlaceOf(next, j);
    KeptGood(packets, ch, ch, r, sent, out, Result(true, d.0, d.1), r);
    GoodMeans(packets, d.0, r, sent, out + d.1);
    SettledOf(packets, d.0, r, sent);
    TakeUnreliableKeeps(packets, d.0, r, sent, out + d.1, tag, f, k, c);
    KeepsCompose(packets, ch, r, sent, out, Result(true, d.0, d.1), r, TakeUnreliableFragment(d.0, k, c, []), 0);
    QueueUnreliableSteps(ch, j, c);
  }

  lemma CarriedBounds(c: Command, p: Packet, f: nat)
    requires Carries(c, p, f)
    ensures c.fragment < c.count && c.offset + |c.data| <= c.total
  {
  }

  lemma WaitsForFragments(packets: seq<Packet>, e: Incoming, r: nat)
    requires e.tag < |packets| && packets[e.tag].first >= r && e.remaining > 0
    ensures Waiting(packets, e, r)
  {
  }

  /** SEND_UNRELIABLE_FRAGMENT */
  lemma ReceiveUnreliableFragmentKeeps(packets: seq<Packet>, ch: Channel, r: nat, sent: nat, out: seq<Incoming>, tag: nat, f: nat,
                                       room: bool, maximumPacketSize: nat)
    requires Good(packets, ch, r, sent, out) && BitsOk(ch.unreliables) && tag < |packets| && packets[tag].Ok()
    requires packets[tag].kind == SendUnreliableFragment && f < packets[tag].Pieces()
    requires Win(packets[tag].first) <= Win(sent) + FARTHEST && Win(sent) <= Win(packets[tag].first) + OLDEST
    ensures packets[tag].Wire(tag, f).kind == SendUnreliableFragment
    ensures Outcome(packets, ch, r, sent, out, ReceiveUnreliableFragment(ch, packets[tag].Wire(tag, f), room, maximumPacketSize), 0)
  {
    var p := packets[tag];
    var x, c := p.first, p.Wire(tag, f);
    GoodMeans(packets, ch, r, sent, out);
    SettledOf(packets, ch, r, sent);
    UnreliableKind(p);
    WireUnreliable(p, tag, f);
    SomePieces(p);
    WireCarries(p, tag, f);
    UnreliableReach(x, r, sent);
    Discarded(packets, ch, r, sent, out, true);
    Discarded(packets, ch, r, sent, out, false);
    hide *;
    CarriedBounds(c, p, f);
    var place := SearchUnreliable(ch.unreliables, c.reliable, c.start, ch.incoming, |ch.unreliables|);
    if InWindow(c.reliable, ch.incoming) && !(c.reliable == ch.incoming && c.start <= ch.unreliable) {
      UnreliablePlace(packets, ch.unreliables, r, tag);
      if place.At? {
        TakeUnreliableKeeps(packets, ch, r, sent, out, tag, f, place.index, c);
      } else {
        FirstUnreliableKeeps(packets, ch, r, sent, out, tag, f, place.index, c);
      }
    }
    UnreliableFragmentCases(ch, c, room, maximumPacketSize);
  }

  lemma UnreliableFragmentCases(ch: Channel, c: Command, room: bool, maximumPacketSize: nat)
    requires BitsOk(ch.unreliables) && c.kind == SendUnreliableFragment && c.fragment < c.count && c.offset + |c.data| <= c.total
    requires var place := SearchUnreliable(ch.unreliables, c.reliable, c.start, ch.incoming, |ch.unreliables|);
      InWindow(c.reliable, ch.incoming) && !(c.reliable == ch.incoming && c.start <= ch.unreliable) && place.At? ==>
      SamePacket(ch.unreliables[place.index], c)
    ensures var place := SearchUnreliable(ch.unreliables, c.reliable, c.start, ch.incoming, |ch.unreliables|);
      var t := ReceiveUnreliableFragment(ch, c, room, maximumPacketSize);
      || t == Result(true, ch, []) || t == Result(false, ch, [])
      || (InWindow(c.reliable, ch.incoming) && !(c.reliable == ch.incoming && c.start <= ch.unreliable)
          && t == if place.At? then TakeUnreliableFragment(ch, place.index, c, []) else QueueUnreliableFragment(ch, place.index, c))
  {
    hide SearchUnreliable, QueueUnreliableFragment, InWindow, TakeUnreliableFragment;
  }
}
