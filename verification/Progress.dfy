/** What a connection can still deliver: from every state of every run there are steps that send,
    deliver and acknowledge everything that is not too long. */
module Progress {
  import opened Words
  import opened SequenceNumbers
  import opened IncomingChannel
  import opened DeliveryModel
  import opened DeliveryProof
  import opened DeliveryInvariant
  import opened DeliveryTheorems
  import opened ReliableRuns
  import opened DatagramLifetime
  import opened LargePackets

  // ---- numbers and their packets

  lemma {:induction false} PacketWith(packets: seq<Packet>, n: nat) returns (tag: nat)
    requires History(packets) && 1 <= n <= LastReliable(packets)
    ensures tag < |packets| && packets[tag].Reliable() && packets[tag].first <= n <= packets[tag].last
    decreases |packets|
  {
    var k := |packets| - 1;
    assert Follows(packets[..k], packets[k]);
    if packets[k].Reliable() && packets[k].first <= n {
      tag := k;
    } else {
      HistoryBefore(packets, k);
      tag := PacketWith(packets[..k], n);
    }
  }

  lemma OnlyPacket(packets: seq<Packet>, a: nat, b: nat, n: nat)
    requires History(packets) && a < |packets| && b < |packets| && packets[a].Reliable() && packets[b].Reliable()
    requires packets[a].first <= n <= packets[a].last && packets[b].first <= n <= packets[b].last
    ensures a == b
  {
    hide History;
    if a < b {
      HistoryOrder(packets, a, b);
    } else if b < a {
      HistoryOrder(packets, b, a);
    }
  }

  /** Every packet has as few fragments as enet_peer_send accepts. */
  predicate Accepts(packets: seq<Packet>) {
    forall k :: 0 <= k < |packets| ==> packets[k].Count() <= MAXIMUM_FRAGMENT_COUNT
  }

  // ---- steps without unreliable packets

  ghost predicate Goes(s: State, t: State, n: nat, most: nat)
    decreases n
  {
    if n == 0 then s == t
    else exists m: State, step: Step :: Goes(s, m, n - 1, most) && Next(m, step, t) && Within(step, most) && !BringsUnreliable(m, step)
  }

  lemma GoesOn(s: State, m: State, n: nat, most: nat, step: Step, t: State)
    requires Goes(s, m, n, most) && Next(m, step, t) && Within(step, most) && !BringsUnreliable(m, step)
    ensures Goes(s, t, n + 1, most)
  {
    hide Next, Within, BringsUnreliable;
  }

  lemma GoesNowhere(s: State, most: nat)
    ensures Goes(s, s, 0, most)
  {
  }

  // ---- what is sent arrives

  ghost predicate HasUpTo(s: State, r: nat, m: nat) {
    forall i :: r < i <= m ==> Has(s.packets, s.channel.reliables, r, i)
  }

  /** The packet that begins behind the receiver's number is the one whose commands are missing. */
  lemma NextBegins(s: State, r: nat, m: nat) returns (tag: nat)
    requires InvAt(s, r) && HasUpTo(s, r, m) && r <= m < LastReliable(s.packets)
    ensures tag < |s.packets| && s.packets[tag].Reliable() && s.packets[tag].Ok() && s.packets[tag].first == r + 1 && m < s.packets[tag].last
  {
    InvMeans(s, r);
    hide InvAt, Has, ReliableQueue, UnreliableSettled, OutInv, Win, Num, Good, SenderInv, Secured, HoldsNumber;
    QueueOf(s.packets, s.channel, r, s.sent);
    NotReady(s.channel);
    hide ChannelInv, Idle;
    tag := PacketWith(s.packets, r + 1);
    NumbersOrdered(s.packets, tag);
    hide History;
    assert s.packets[tag].first == r + 1;
    if s.packets[tag].last <= m {
      forall t | 0 <= t < |s.packets| && s.packets[t].Reliable() && s.packets[t].first == r + 1 ensures s.packets[t].last <= m {
        NumbersOrdered(s.packets, t);
        OnlyPacket(s.packets, t, tag, r + 1);
      }
      FirstIsReady(s.packets, s.channel.reliables, r, s.sent, m);
    }
  }

  /** A command of that packet is not refused. */
  lemma AcceptsFragment(packets: seq<Packet>, ch: Channel, r: nat, sent: nat, tag: nat, f: nat)
    requires History(packets) && ChannelInv(packets, ch, r, sent) && BitsOk(ch.reliables)
    requires tag < |packets| && packets[tag].Ok() && packets[tag].kind == SendFragment && packets[tag].Count() <= MAXIMUM_FRAGMENT_COUNT
    requires packets[tag].first == r + 1 <= sent && f < packets[tag].Pieces()
    ensures ReceiveFragment(ch, packets[tag].Wire(tag, f), true, |packets[tag].data|).ok
  {
    hide *;
    var p := packets[tag];
    var c := p.Wire(tag, f);
    IsFragmented(p);
    WireFragment(p, tag, f);
    SomePieces(p);
    ClearFragment(p, tag, f);
    FitsWhole(p, tag, f);
    QueueOf(packets, ch, r, sent);
    AfterNext(r);
    ReliablePlace(packets, ch.reliables, r, sent, tag);
    var place := SearchReliable(ch.reliables, c.start, ch.incoming, |ch.reliables|);
    if place.At? {
      ReliableQueueTags(packets, ch.reliables, r, sent, place.index);
      EntryShape(ch.reliables[place.index], p, c, f);
      TakesFragment(ch, c, true, |p.data|);
      TakeOk(ch, place.index, c);
    } else {
      QueueFragmentSteps(ch, place.index, c);
      QueuesFragment(ch, c, true, |p.data|);
    }
  }

  lemma FitsWhole(p: Packet, tag: nat, f: nat)
    requires p.Ok() && p.kind == SendFragment && f < p.Pieces() == p.Count() <= MAXIMUM_FRAGMENT_COUNT
    ensures FragmentFits(p.Wire(tag, f), |p.data|) && |p.Wire(tag, f).data| <= |p.data|
  {
    p.PieceBounds(f);
  }

  lemma AfterNext(r: nat)
    ensures InWindow(Num(r + 1), Num(r)) && Num(r + 1) != Num(r) && Win(r + 1) <= Win(r) + 1 && Win(r + 1) < Win(r) + WINDOWS
  {
    AheadOf(r + 1, r);
  }

  lemma TakeOk(ch: Channel, i: nat, c: Command)
    requires BitsOk(ch.reliables) && i < |ch.reliables| && SamePacket(ch.reliables[i], c)
    requires c.fragment < c.count && c.offset + |c.data| <= c.total
    ensures TakeFragment(ch, i, c, []).ok
  {
    hide DispatchReliable;
  }

  lemma AcceptsNext(packets: seq<Packet>, ch: Channel, r: nat, sent: nat, tag: nat, f: nat)
    requires History(packets) && ChannelInv(packets, ch, r, sent) && BitsOk(ch.reliables) && BitsOk(ch.unreliables)
    requires tag < |packets| && packets[tag].Ok() && packets[tag].Reliable() && packets[tag].Count() <= MAXIMUM_FRAGMENT_COUNT
    requires packets[tag].first == r + 1 <= sent && f < packets[tag].Pieces()
    ensures Receive(ch, packets[tag].Wire(tag, f), true, |packets[tag].data|).ok
  {
    hide *;
    var p := packets[tag];
    WireKind(p, tag, f);
    UnreliableKind(p);
    ReceiveIs(ch, p.Wire(tag, f), true, |p.data|);
    if p.kind == SendFragment {
      SomePieces(p);
      FitsWhole(p, tag, f);
      AcceptsFragment(packets, ch, r, sent, tag, f);
    } else {
      WholeWire(p, tag, f);
      ReliableOk(ch, p.Wire(tag, f));
    }
  }

  lemma WholeWire(p: Packet, tag: nat, f: nat)
    requires p.Ok() && p.kind == SendReliable && f < p.Pieces()
    ensures p.Wire(tag, f).data == p.data
  {
  }

  lemma ReliableOk(ch: Channel, c: Command)
    ensures ReceiveReliable(ch, c, true).ok
  {
    hide DispatchReliable, SearchReliable, InWindow;
  }

  /** A datagram that was sent, and the state after it. */
  ghost function AfterDelivery(s: State, tag: nat, f: nat): State
    requires tag < |s.packets| && s.packets[tag].Ok() && f < s.packets[tag].Pieces()
    requires BitsOk(s.channel.reliables) && BitsOk(s.channel.unreliables)
  {
    var c := s.packets[tag].Wire(tag, f);
    var a := Receive(s.channel, c, true, |s.packets[tag].data|);
    s.(channel := a.channel, out := s.out + a.out, acks := if Acknowledges(a, c) then s.acks + {s.packets[tag].first + f} else s.acks)
  }

  lemma MayDeliver(s: State, tag: nat, f: nat, most: nat)
    requires tag < |s.packets| && s.packets[tag].Ok() && s.packets[tag].Reliable() && f < s.packets[tag].Pieces()
    requires BitsOk(s.channel.reliables) && BitsOk(s.channel.unreliables)
    requires Fresh(s, s.packets[tag]) && s.packets[tag].first + f <= s.sent
    ensures var step := Deliver(tag, f, true, |s.packets[tag].data|);
      Next(s, step, AfterDelivery(s, tag, f)) && Within(step, most) && !BringsUnreliable(s, step) && Timely(s, step)
  {
    hide Receive, Packet.Wire, Packet.Ok, Packet.Pieces, BitsOk, Acknowledges, Fresh;
  }

  /** Of the packet that comes next, what was sent is taken. */
  lemma TakesNext(s: State, r: nat, tag: nat, f: nat, most: nat) returns (t: State, r': nat)
    requires InvAt(s, r) && tag < |s.packets| && s.packets[tag].Reliable() && s.packets[tag].Count() <= MAXIMUM_FRAGMENT_COUNT
    requires s.packets[tag].first == r + 1 && f < s.packets[tag].Pieces() && s.packets[tag].first + f <= s.sent
    ensures Goes(s, t, 1, most) && InvAt(t, r') && Carried(s, r, t, r') && Has(t.packets, t.channel.reliables, r', r + 1 + f)
    ensures t.packets == s.packets && t.sent == s.sent && t.unacked == s.unacked && s.acks <= t.acks
  {
    hide *;
    InvMeans(s, r);
    NumbersOrdered(s.packets, tag);
    EntriesHaveBits(s.packets, s.channel, r, s.sent);
    SettledOf(s.packets, s.channel, r, s.sent);
    NextFresh(s, r, s.packets[tag]);
    MayDeliver(s, tag, f, most);
    t := AfterDelivery(s, tag, f);
    var step := Deliver(tag, f, true, |s.packets[tag].data|);
    r' := DeliverKeeps(s, r, t, tag, f, true, |s.packets[tag].data|);
    AcceptsNext(s.packets, s.channel, r, s.sent, tag, f);
    GoesNowhere(s, most);
    GoesOn(s, s, 0, most, step, t);
    DeliveredSame(s, tag, f);
    Taken(s, r, t, r', tag, f);
  }

  lemma NextFresh(s: State, r: nat, p: Packet)
    requires Win(s.sent) < Win(r) + FREE_WINDOWS && p.first == r + 1
    ensures Fresh(s, p)
  {
    WinMonotone(r, r + 1);
  }

  lemma DeliveredSame(s: State, tag: nat, f: nat)
    requires tag < |s.packets| && s.packets[tag].Ok() && f < s.packets[tag].Pieces()
    requires BitsOk(s.channel.reliables) && BitsOk(s.channel.unreliables)
    ensures var t := AfterDelivery(s, tag, f);
      && t.packets == s.packets && t.sent == s.sent && t.unacked == s.unacked && s.acks <= t.acks
      && t.channel == Receive(s.channel, s.packets[tag].Wire(tag, f), true, |s.packets[tag].data|).channel
  {
    hide Receive, Packet.Wire, Packet.Ok, Packet.Pieces, BitsOk, Acknowledges;
  }

  lemma Taken(s: State, r: nat, t: State, r': nat, tag: nat, f: nat)
    requires History(s.packets) && tag < |s.packets| && s.packets[tag].Reliable() && s.packets[tag].Ok()
    requires s.packets[tag].first == r + 1 && f < s.packets[tag].Pieces() && Carried(s, r, t, r')
    requires BitsOk(s.channel.reliables) && BitsOk(s.channel.unreliables)
    requires var a := Receive(s.channel, s.packets[tag].Wire(tag, f), true, |s.packets[tag].data|);
      a.ok && a.channel == t.channel && TakenOrFar(s.packets, a, r', s.packets[tag].first + f)
    requires t.packets == s.packets
    ensures Has(t.packets, t.channel.reliables, r', r + 1 + f)
  {
    hide Receive, Packet.Wire, Packet.Pieces, BitsOk, Has, History;
    var n := r + 1 + f;
    if OutOfReach(s.packets, r', n) {
      var tag' :| 0 <= tag' < |s.packets| && s.packets[tag'].Reliable() && s.packets[tag'].first <= n <= s.packets[tag'].last
        && Win(r') + FREE_WINDOWS - 1 <= Win(s.packets[tag'].first);
      OnlyPacket(s.packets, tag, tag', n);
      AfterNext(r);
      WinMonotone(r, r');
    }
  }

  /** Everything up to m arrives. */
  lemma {:induction false} CatchUp(s: State, r: nat, m: nat, most: nat) returns (t: State, r': nat, n: nat)
    requires InvAt(s, r) && Accepts(s.packets) && m <= s.sent
    ensures Goes(s, t, n, most) && InvAt(t, r') && HasUpTo(t, r', m)
    ensures t.packets == s.packets && t.sent == s.sent && t.unacked == s.unacked && s.acks <= t.acks
    decreases m
  {
    hide InvAt, Has, Goes, Packet.Count, Packet.Pieces, Packet.Ok, LastReliable;
    if m == 0 {
      t, r', n := s, r, 0;
      GoesNowhere(s, most);
    } else {
      t, r', n := CatchUp(s, r, m - 1, most);
      if r' < m && !Has(t.packets, t.channel.reliables, r', m) {
        SentIsGiven(t, r');
        var tag := NextBegins(t, r', m - 1);
        NumberHasPiece(t.packets[tag], m);
        var t0, r0 := t, r';
        t, r' := TakesNext(t0, r0, tag, m - t0.packets[tag].first, most);
        GoesFurther(s, t0, n, most, t);
        n := n + 1;
        HasMore(t0, r0, t, r', m);
      }
    }
  }

  lemma SentIsGiven(s: State, r: nat)
    requires InvAt(s, r)
    ensures s.sent <= LastReliable(s.packets)
  {
  }

  lemma NumberHasPiece(p: Packet, n: nat)
    requires p.Ok() && p.Reliable() && p.first <= n <= p.last
    ensures n - p.first < p.Pieces()
  {
  }

  lemma GoesFurther(s: State, m: State, n: nat, most: nat, t: State)
    requires Goes(s, m, n, most) && Goes(m, t, 1, most)
    ensures Goes(s, t, n + 1, most)
  {
    var m', step :| Goes(m, m', 0, most) && Next(m', step, t) && Within(step, most) && !BringsUnreliable(m', step);
    hide Next, Within, BringsUnreliable;
    GoesOn(s, m, n, most, step, t);
  }

  lemma HasMore(s: State, r: nat, t: State, r': nat, m: nat)
    requires Carried(s, r, t, r') && t.packets == s.packets && m > 0 && HasUpTo(s, r, m - 1) && Has(t.packets, t.channel.reliables, r', m)
    ensures HasUpTo(t, r', m)
  {
    hide HoldsNumber;
  }

  // ---- what has arrived is acknowledged

  /** A repetition changes nothing for the receiver. */
  lemma Repeated(s: State, r: nat, tag: nat, f: nat)
    requires InvAt(s, r) && tag < |s.packets| && s.packets[tag].Ok() && s.packets[tag].Reliable() && f < s.packets[tag].Pieces()
    requires BitsOk(s.channel.reliables) && BitsOk(s.channel.unreliables) && s.packets[tag].Count() <= MAXIMUM_FRAGMENT_COUNT
    requires Fresh(s, s.packets[tag]) && s.packets[tag].first + f <= s.sent
    requires Has(s.packets, s.channel.reliables, r, s.packets[tag].first + f)
    ensures Receive(s.channel, s.packets[tag].Wire(tag, f), true, |s.packets[tag].data|) == Result(true, s.channel, [])
  {
    hide *;
    var p := s.packets[tag];
    InvMeans(s, r);
    WireKind(p, tag, f);
    UnreliableKind(p);
    FreshMeans(s, p);
    Placement(s.packets, s.channel, r, s.sent, tag);
    QueueOf(s.packets, s.channel, r, s.sent);
    ReceiveIs(s.channel, p.Wire(tag, f), true, |p.data|);
    if p.kind == SendFragment {
      SomePieces(p);
      FitsWhole(p, tag, f);
      WireFragment(p, tag, f);
      IsFragmented(p);
      if r < p.first {
        FoundAt(s.packets, s.channel, r, s.sent, tag, p.first + f);
        FragmentRepeated(s.packets, s.channel, r, s.sent, tag, f);
      } else {
        BehindIsDone(s.packets, s.channel, r, s.sent, tag, f);
        FragmentTooOld(s.channel, p.Wire(tag, f), |p.data|);
      }
    } else {
      WholeWire(p, tag, f);
      WireReliable(p, tag);
      if r < p.first {
        FoundAt(s.packets, s.channel, r, s.sent, tag, p.first);
      }
      ReliableRepeated(s.channel, p.Wire(tag, f));
    }
  }

  /** The walk finds the entry that holds the number. */
  lemma FoundAt(packets: seq<Packet>, ch: Channel, r: nat, sent: nat, tag: nat, i: nat)
    requires History(packets) && ChannelInv(packets, ch, r, sent) && tag < |packets| && packets[tag].Reliable()
    requires r < packets[tag].first <= i <= packets[tag].last && i <= sent && Has(packets, ch.reliables, r, i)
    ensures var place := SearchReliable(ch.reliables, Num(packets[tag].first), ch.incoming, |ch.reliables|);
      place.At? && ch.reliables[place.index].tag == tag && HoldsNumber(packets, ch.reliables[place.index], i)
  {
    hide ChannelInv, EntryOk, History, Win, Num, SearchReliable, Boundary, UnreliableSettled, BytesOk, TagsAscend, Packet.Ok, Packet.Count,
      Packet.Pieces;
    QueueOf(packets, ch, r, sent);
    SettledOf(packets, ch, r, sent);
    var q := ch.reliables;
    var k :| 0 <= k < |q| && HoldsNumber(packets, q[k], i);
    OnlyPacket(packets, tag, q[k].tag, i);
    WinMonotone(packets[tag].first, sent);
    ReliablePlace(packets, q, r, sent, tag);
    var place := SearchReliable(q, Num(packets[tag].first), ch.incoming, |q|);
    if place.At? {
      OneEntry(packets, q, r, sent, place.index, k);
    }
  }

  lemma OneEntry(packets: seq<Packet>, q: seq<Incoming>, r: nat, sent: nat, j: nat, k: nat)
    requires ReliableQueue(packets, q, r, sent) && j < |q| && k < |q| && q[j].tag == q[k].tag
    ensures j == k
  {
    hide ReliableEntry;
  }

  lemma FragmentRepeated(packets: seq<Packet>, ch: Channel, r: nat, sent: nat, tag: nat, f: nat)
    requires ReliableQueue(packets, ch.reliables, r, sent) && BitsOk(ch.reliables) && tag < |packets|
    requires packets[tag].Ok() && packets[tag].kind == SendFragment && f < packets[tag].Pieces() == packets[tag].Count() <= MAXIMUM_FRAGMENT_COUNT
    requires var place := SearchReliable(ch.reliables, Num(packets[tag].first), ch.incoming, |ch.reliables|);
      place.At? && ch.reliables[place.index].tag == tag && HoldsNumber(packets, ch.reliables[place.index], packets[tag].first + f)
    ensures packets[tag].Wire(tag, f).kind == SendFragment
    ensures ReceiveFragment(ch, packets[tag].Wire(tag, f), true, |packets[tag].data|) == Result(true, ch, [])
  {
    hide *;
    var p := packets[tag];
    var c := p.Wire(tag, f);
    WireFragment(p, tag, f);
    ClearFragment(p, tag, f);
    FitsWhole(p, tag, f);
    var k := SearchReliable(ch.reliables, c.start, ch.incoming, |ch.reliables|).index;
    ReliableQueueTags(packets, ch.reliables, r, sent, k);
    EntryShape(ch.reliables[k], p, c, f);
    IsFragmented(p);
    GotIs(packets, ch.reliables[k], tag, f);
    if InWindow(c.start, ch.incoming) {
      TakesFragment(ch, c, true, |p.data|);
      TakeAgain(ch, k, c);
    } else {
      FragmentTooOld(ch, c, |p.data|);
    }
  }

  lemma GotIs(packets: seq<Packet>, e: Incoming, tag: nat, f: nat)
    requires e.tag == tag && tag < |packets| && packets[tag].Fragmented() && HoldsNumber(packets, e, packets[tag].first + f)
    ensures f < |e.got| && e.got[f]
  {
  }

  lemma TakeAgain(ch: Channel, k: nat, c: Command)
    requires BitsOk(ch.reliables) && k < |ch.reliables| && SamePacket(ch.reliables[k], c)
    requires c.fragment < c.count && c.offset + |c.data| <= c.total && ch.reliables[k].got[c.fragment]
    ensures TakeFragment(ch, k, c, []) == Result(true, ch, [])
  {
  }

  lemma FragmentTooOld(ch: Channel, c: Command, maximumPacketSize: nat)
    requires BitsOk(ch.reliables) && c.kind == SendFragment && !InWindow(c.start, ch.incoming)
    ensures ReceiveFragment(ch, c, true, maximumPacketSize) == Result(true, ch, [])
  {
    hide InWindow, SearchReliable;
  }

  lemma ReliableRepeated(ch: Channel, c: Command)
    requires !InWindow(c.reliable, ch.incoming) || c.reliable == ch.incoming
      || SearchReliable(ch.reliables, c.reliable, ch.incoming, |ch.reliables|).At?
    ensures ReceiveReliable(ch, c, true) == Result(true, ch, [])
  {
    hide InWindow, SearchReliable, DispatchReliable;
  }

  /** What is still kept by the sender and in the receiver's windows is not refused an acknowledgement. */
  lemma IsAcknowledged(i: nat, r: nat)
    requires Win(r) < Win(i) + FREE_WINDOWS - 1 && Win(i) < Win(r) + FREE_WINDOWS - 1
    ensures Acknowledged(Num(i), Num(r))
  {
    NumWin(i);
    NumWin(r);
    if r <= i {
      AheadOf(i, r);
    }
  }

  lemma AcknowledgedAgain(s: State, r: nat, tag: nat, f: nat)
    requires InvAt(s, r) && tag < |s.packets| && s.packets[tag].Ok() && s.packets[tag].Reliable() && f < s.packets[tag].Pieces()
    requires BitsOk(s.channel.reliables) && BitsOk(s.channel.unreliables) && s.packets[tag].Count() <= MAXIMUM_FRAGMENT_COUNT
    requires Fresh(s, s.packets[tag]) && s.packets[tag].first + f <= s.sent
    requires Has(s.packets, s.channel.reliables, r, s.packets[tag].first + f)
    requires var i := s.packets[tag].first + f; Win(r) < Win(i) + FREE_WINDOWS - 1 && Win(i) < Win(r) + FREE_WINDOWS - 1
    ensures AfterDelivery(s, tag, f) == s.(acks := s.acks + {s.packets[tag].first + f})
  {
    hide *;
    Repeated(s, r, tag, f);
    InvMeans(s, r);
    QueueOf(s.packets, s.channel, r, s.sent);
    WireKind(s.packets[tag], tag, f);
    UnreliableKind(s.packets[tag]);
    IsAcknowledged(s.packets[tag].first + f, r);
    AcknowledgedThen(s, tag, f);
  }

  lemma AcknowledgedThen(s: State, tag: nat, f: nat)
    requires tag < |s.packets| && s.packets[tag].Ok() && f < s.packets[tag].Pieces()
    requires BitsOk(s.channel.reliables) && BitsOk(s.channel.unreliables)
    requires var c := s.packets[tag].Wire(tag, f);
      && Receive(s.channel, c, true, |s.packets[tag].data|) == Result(true, s.channel, [])
      && (c.kind == SendReliable || c.kind == SendFragment) && Acknowledged(c.reliable, s.channel.incoming)
    ensures AfterDelivery(s, tag, f) == s.(acks := s.acks + {s.packets[tag].first + f})
  {
    hide Receive, Packet.Wire, Packet.Ok, Packet.Pieces, BitsOk, Acknowledged;
    assert s.out + [] == s.out;
  }

  lemma MayRemove(s: State, i: nat, most: nat)
    requires i in s.acks && i in s.unacked && s.sent < i + SPACE
    ensures var step := DeliverAck(i, i);
      Next(s, step, s.(unacked := s.unacked - {i})) && Within(step, most) && !BringsUnreliable(s, step)
  {
    hide Num;
  }

  /** Whatever the sender keeps was acknowledged once, or can still be sent again in time. */
  ghost predicate Retrievable(s: State) {
    forall i, tag :: (i in s.unacked && i !in s.acks && 0 <= tag < |s.packets| && s.packets[tag].Reliable()
                      && s.packets[tag].first <= i <= s.packets[tag].last) ==> Fresh(s, s.packets[tag])
  }

  /** One command is acknowledged, and the sender lets it go. */
  lemma OneAcknowledged(s: State, r: nat, i: nat, most: nat) returns (t: State, n: nat)
    requires InvAt(s, r) && Accepts(s.packets) && HasUpTo(s, r, s.sent) && Retrievable(s)
    requires i in s.unacked && Win(i) < Win(r) + FREE_WINDOWS - 1
    ensures Goes(s, t, n, most) && InvAt(t, r) && n <= 2
    ensures t == s.(unacked := s.unacked - {i}, acks := s.acks + {i})
  {
    hide *;
    var u := s.(acks := s.acks + {i});
    t := u.(unacked := u.unacked - {i});
    KeptMeans(s, r, i);
    GoesNowhere(s, most);
    n := 0;
    if i !in s.acks {
      InvMeans(s, r);
      EntriesHaveBits(s.packets, s.channel, r, s.sent);
      var tag := PacketWith(s.packets, i);
      NumbersOrdered(s.packets, tag);
      FreshOf(s, i, tag);
      NumberHasPiece(s.packets[tag], i);
      SentHas(s, r, i);
      FewFragments(s.packets, tag);
      AcknowledgedAgain(s, r, tag, i - s.packets[tag].first);
      MayDeliver(s, tag, i - s.packets[tag].first, most);
      var step := Deliver(tag, i - s.packets[tag].first, true, |s.packets[tag].data|);
      GoesOn(s, s, 0, most, step, u);
      StepInv(s, r, u, step, i);
      n := 1;
    } else {
      assert u == s;
    }
    MayRemove(u, i, most);
    GoesOn(s, u, n, most, DeliverAck(i, i), t);
    DeliverAckKeeps(u, r, t, i, i);
    n := n + 1;
  }

  lemma KeptMeans(s: State, r: nat, i: nat)
    requires InvAt(s, r) && i in s.unacked
    ensures 1 <= i <= s.sent <= LastReliable(s.packets) && Win(s.sent) < Win(i) + FREE_WINDOWS - 1 && s.sent < i + SPACE
    ensures Win(r) < Win(i) + FREE_WINDOWS - 1
  {
    InvMeans(s, r);
    SettledOf(s.packets, s.channel, r, s.sent);
    hide InvAt, Good, Idle, ChannelInv, OutInv, History, Secured, LastReliable;
    WinMonotone(r, s.sent);
  }

  lemma FreshOf(s: State, i: nat, tag: nat)
    requires Retrievable(s) && i in s.unacked && i !in s.acks && tag < |s.packets| && s.packets[tag].Reliable()
    requires s.packets[tag].first <= i <= s.packets[tag].last
    ensures Fresh(s, s.packets[tag])
  {
  }

  lemma FewFragments(packets: seq<Packet>, tag: nat)
    requires Accepts(packets) && tag < |packets|
    ensures packets[tag].Count() <= MAXIMUM_FRAGMENT_COUNT
  {
  }

  lemma SentHas(s: State, r: nat, i: nat)
    requires HasUpTo(s, r, s.sent) && i <= s.sent
    ensures Has(s.packets, s.channel.reliables, r, i)
  {
  }

  /** The receiver stays where it is. */
  lemma StepInv(s: State, r: nat, u: State, step: Step, i: nat)
    requires InvAt(s, r) && u == s.(acks := s.acks + {i}) && 1 <= i <= s.sent
    requires Has(s.packets, s.channel.reliables, r, i) && Win(i) < Win(r) + FREE_WINDOWS - 1
    ensures InvAt(u, r)
  {
    hide Good, Idle, Has, LastReliable, Win;
  }

  lemma {:induction false} GoesAll(s: State, m: State, n: nat, t: State, k: nat, most: nat)
    requires Goes(s, m, n, most) && Goes(m, t, k, most)
    ensures Goes(s, t, n + k, most)
    decreases k
  {
    hide Next, Within, BringsUnreliable;
    if k > 0 {
      var u, step :| Goes(m, u, k - 1, most) && Next(u, step, t) && Within(step, most) && !BringsUnreliable(u, step);
      GoesAll(s, m, n, u, k - 1, most);
      GoesOn(s, u, n + k - 1, most, step, t);
    }
  }

  /** All of the first m commands that the receiver acknowledges are acknowledged. */
  lemma {:induction false} AcknowledgeUpTo(s: State, r: nat, m: nat, most: nat) returns (t: State, n: nat)
    requires InvAt(s, r) && Accepts(s.packets) && HasUpTo(s, r, s.sent) && Retrievable(s)
    ensures Goes(s, t, n, most) && InvAt(t, r)
    ensures t == s.(unacked := t.unacked, acks := t.acks) && t.unacked <= s.unacked && s.acks <= t.acks
    ensures forall j :: j in t.unacked && j <= m ==> Win(r) + FREE_WINDOWS - 1 <= Win(j)
    decreases m
  {
    hide InvAt, Has, Goes, Win, Retrievable, Fresh, Packet.Reliable, Packet.Count;
    if m == 0 {
      t, n := s, 0;
      GoesNowhere(s, most);
      if 0 in t.unacked {
        KeptMeans(s, r, 0);
      }
    } else {
      t, n := AcknowledgeUpTo(s, r, m - 1, most);
      if m in t.unacked && Win(m) < Win(r) + FREE_WINDOWS - 1 {
        StillRetrievable(s, t);
        var u, k := OneAcknowledged(t, r, m, most);
        GoesAll(s, t, n, u, k, most);
        t, n := u, n + k;
      }
    }
  }

  lemma StillRetrievable(s: State, t: State)
    requires Retrievable(s) && t.packets == s.packets && t.sent == s.sent && t.unacked <= s.unacked && s.acks <= t.acks
    ensures Retrievable(t)
  {
    forall i, tag | i in t.unacked && i !in t.acks && 0 <= tag < |t.packets| && t.packets[tag].Reliable()
      && t.packets[tag].first <= i <= t.packets[tag].last
      ensures Fresh(t, t.packets[tag])
    {
      assert i in s.unacked && i !in s.acks;
    }
  }

  // ---- the sender goes on

  /** Everything sent has arrived, and all of it is acknowledged that can be before its packet is complete. */
  ghost predicate Quiet(s: State, r: nat) {
    && InvAt(s, r) && HasUpTo(s, r, s.sent)
    && forall j :: j in s.unacked ==> Win(r) + FREE_WINDOWS - 1 <= Win(j)
  }

  lemma QuietDown(s: State, most: nat) returns (t: State, r: nat, n: nat)
    requires Inv(s) && Accepts(s.packets) && Retrievable(s)
    ensures Goes(s, t, n, most) && Quiet(t, r)
    ensures t.packets == s.packets && t.sent == s.sent && t.unacked <= s.unacked && s.acks <= t.acks
  {
    hide InvAt, Goes, Win, Retrievable, HasUpTo, Accepts;
    r :| InvAt(s, r);
    var r0 := r;
    t, r, n := CatchUp(s, r0, s.sent, most);
    var t0 := t;
    StillRetrievable(s, t0);
    var k;
    t, k := AcknowledgeUpTo(t0, r, t0.sent, most);
    HasStill(t0, t, r);
    GoesAll(s, t0, n, t, k, most);
    n := n + k;
    forall j | j in t.unacked ensures j <= t.sent {
      KeptMeans(t, r, j);
    }
  }

  lemma HasStill(s: State, t: State, r: nat)
    requires HasUpTo(s, r, s.sent) && t.sent == s.sent && t.packets == s.packets && t.channel == s.channel
    ensures HasUpTo(t, r, t.sent)
  {
  }

  lemma NothingWraps(n: uint16)
    ensures !WindowWraps({}, n)
  {
    assert forall v: nat :: InFlight({}, v) == {};
  }

  lemma InsideWindow(unacked: set<nat>, n: nat)
    requires n % WINDOW_SIZE != 0
    ensures !WindowWraps(unacked, Num(n))
  {
    assert n == n / SPACE * SPACE + Num(n);
  }

  /** The window test lets the next command go: the windows before the seventh are all acknowledged, and
      none begins behind that. */
  lemma WindowAllows(s: State, r: nat, p: Packet)
    requires Quiet(s, r) && p.first == r + 1 && s.sent < p.last && Win(p.last) < Win(r) + FREE_WINDOWS
    ensures !WindowWraps(s.unacked, Num(s.sent + 1))
  {
    forall j | j in s.unacked ensures j <= s.sent {
      KeptMeans(s, r, j);
    }
    hide InvAt, HasUpTo, WindowWraps;
    var n := s.sent + 1;
    WinMonotone(n, p.last);
    if n % WINDOW_SIZE == 0 {
      WindowStarts(n);
      forall j | j in s.unacked ensures false {
        WinMonotone(j, s.sent);
      }
      assert s.unacked == {};
      NothingWraps(Num(n));
    } else {
      InsideWindow(s.unacked, n);
    }
  }

  lemma KeptIsFar(s: State, r: nat)
    requires Quiet(s, r)
    ensures forall j :: j in s.unacked ==> r < j <= s.sent && Win(r) + FREE_WINDOWS - 1 <= Win(j)
  {
    hide InvAt, HasUpTo;
    forall j | j in s.unacked ensures r < j <= s.sent {
      KeptMeans(s, r, j);
      if j <= r {
        WinMonotone(j, r);
      }
    }
  }

  /** There is room for it among the data in flight. */
  lemma DataAllows(s: State, r: nat, tag: nat, most: nat)
    requires Quiet(s, r) && tag < |s.packets| && s.packets[tag].first == r + 1 <= s.sent + 1 <= s.packets[tag].last
    requires History(s.packets) && s.packets[tag].Reliable() && !TooLong(s.packets[tag], most)
    ensures InTransit(Lengths(s.packets), 0, s.unacked + {s.sent + 1}) <= most
  {
    hide *;
    var p, n := s.packets[tag], s.sent + 1;
    KeptIsFar(s, r);
    PartInTransit(s.packets, tag, s.unacked + {n});
    PartAllows(p, r, s.unacked, n, most);
  }

  lemma PartAllows(p: Packet, r: nat, unacked: set<nat>, n: nat, most: nat)
    requires p.Reliable() && p.first == r + 1 <= n <= p.last == r + p.Pieces() && !TooLong(p, most)
    requires forall j :: j in unacked ==> r < j < n && Win(r) + FREE_WINDOWS - 1 <= Win(j)
    ensures InTransit(PieceLengths(p), r, unacked + {n}) <= most
  {
    hide InTransit, Packet.Pieces, Packet.Length, Win;
    var u := unacked + {n};
    if Win(n) >= Win(r) + FREE_WINDOWS - 1 {
      InTransitWithin(PieceLengths(p), r, u, FarNumbers(p));
    } else {
      forall j | j in unacked ensures false {
        WinMonotone(j, n);
      }
      assert u == {n};
      InTransitOne(PieceLengths(p), r, n);
    }
  }

  /** One more command is sent and arrives. */
  lemma OneMore(s: State, r: nat, tag: nat, most: nat) returns (t: State, r': nat, n: nat)
    requires Quiet(s, r) && Accepts(s.packets) && tag < |s.packets| && s.packets[tag].Reliable() && s.packets[tag].Ok()
    requires s.packets[tag].first == r + 1 && s.sent < s.packets[tag].last && !TooLong(s.packets[tag], most) && most <= MAXIMUM_WINDOW_SIZE
    ensures Goes(s, t, n, most) && Quiet(t, r')
    ensures t.packets == s.packets && t.sent == s.sent + 1
  {
    hide *;
    var p := s.packets[tag];
    QuietMeans(s, r);
    InvMeans(s, r);
    NotTooLong(p, r, most);
    WindowAllows(s, r, p);
    DataAllows(s, r, tag, most);
    LastIsLast(s.packets, tag);
    var u := s.(sent := s.sent + 1, unacked := s.unacked + {s.sent + 1});
    MayFirstSend(s, u, most);
    FirstSendKeeps(s, r);
    GoesNowhere(s, most);
    GoesOn(s, s, 0, most, FirstSend(most), u);
    NumberHasPiece(p, u.sent);
    FewFragments(s.packets, tag);
    var v;
    v, r' := TakesNext(u, r, tag, u.sent - p.first, most);
    GoesFurther(s, u, 1, most, v);
    HasBefore(s, u, r);
    HasMore(u, r, v, r', u.sent);
    AllOfOne(s, r, tag, u);
    StillRetrievable(u, v);
    var k;
    t, k := AcknowledgeUpTo(v, r', v.sent, most);
    HasStill(v, t, r');
    QuietNow(t, r');
    GoesAll(s, v, 2, t, k, most);
    n := 2 + k;
  }

  lemma QuietMeans(s: State, r: nat)
    requires Quiet(s, r)
    ensures InvAt(s, r) && HasUpTo(s, r, s.sent) && r <= s.sent && s.sent <= LastReliable(s.packets)
  {
    InvMeans(s, r);
    SettledOf(s.packets, s.channel, r, s.sent);
  }

  lemma QuietNow(s: State, r: nat)
    requires InvAt(s, r) && HasUpTo(s, r, s.sent)
    requires forall j :: j in s.unacked && j <= s.sent ==> Win(r) + FREE_WINDOWS - 1 <= Win(j)
    ensures Quiet(s, r)
  {
    hide InvAt, HasUpTo, Win;
    forall j | j in s.unacked ensures j <= s.sent {
      KeptMeans(s, r, j);
    }
  }

  lemma NotTooLong(p: Packet, r: nat, most: nat)
    requires p.Reliable() && p.first == r + 1 && !TooLong(p, most)
    ensures Win(p.last) < Win(r) + FREE_WINDOWS
  {
  }

  lemma MayFirstSend(s: State, u: State, most: nat)
    requires s.sent < LastReliable(s.packets) && !WindowWraps(s.unacked, Num(s.sent + 1))
    requires InTransit(Lengths(s.packets), 0, s.unacked + {s.sent + 1}) <= most <= MAXIMUM_WINDOW_SIZE
    requires u == s.(sent := s.sent + 1, unacked := s.unacked + {s.sent + 1})
    ensures var step := FirstSend(most);
      Next(s, step, u) && Within(step, most) && !BringsUnreliable(s, step)
  {
    hide WindowWraps, InTransit, Lengths, LastReliable, Num;
  }

  lemma HasBefore(s: State, u: State, r: nat)
    requires HasUpTo(s, r, s.sent) && u.packets == s.packets && u.channel == s.channel && u.sent == s.sent + 1
    ensures HasUpTo(u, r, u.sent - 1)
  {
  }

  /** What is kept then belongs to the packet that is being sent, and can be sent again in time. */
  lemma AllOfOne(s: State, r: nat, tag: nat, u: State)
    requires Quiet(s, r) && tag < |s.packets| && s.packets[tag].Reliable() && History(s.packets)
    requires s.packets[tag].first == r + 1 <= s.sent + 1 <= s.packets[tag].last && Win(s.packets[tag].last) < Win(r) + FREE_WINDOWS
    requires u == s.(sent := s.sent + 1, unacked := s.unacked + {s.sent + 1})
    ensures Retrievable(u)
  {
    forall j | j in s.unacked ensures r < j <= s.sent {
      KeptMeans(s, r, j);
      if j <= r {
        WinMonotone(j, r);
      }
    }
    hide InvAt, HasUpTo, Has, History, Win;
    WinMonotone(r, r + 1);
    WinMonotone(u.sent, s.packets[tag].last);
    forall i, t | i in u.unacked && 0 <= t < |u.packets| && u.packets[t].Reliable() && u.packets[t].first <= i <= u.packets[t].last
      ensures Fresh(u, u.packets[t])
    {
      OnlyPacket(s.packets, tag, t, i);
    }
  }

  // ---- what can arrive

  /** A quiet receiver has dispatched every packet that was sent as a whole. */
  lemma SentIsArrived(s: State, r: nat, tag: nat)
    requires Quiet(s, r) && tag < |s.packets| && s.packets[tag].Reliable() && s.packets[tag].last <= s.sent
    ensures Arrived(s, tag)
  {
    hide *;
    QuietMeans(s, r);
    InvMeans(s, r);
    NumbersOrdered(s.packets, tag);
    LastIsLast(s.packets, tag);
    if r < s.packets[tag].last {
      if s.sent == LastReliable(s.packets) {
        WholeSent(s, r);
      } else {
        var t := NextBegins(s, r, s.sent);
        OrderedSo(s.packets, tag, t);
      }
    }
    UpToArrived(s, r, tag);
  }

  /** With everything sent nothing waits. */
  lemma WholeSent(s: State, r: nat)
    requires Quiet(s, r) && s.sent == LastReliable(s.packets)
    ensures r == s.sent && s.unacked == {}
  {
    hide *;
    QuietMeans(s, r);
    WholeArrived(s, r);
    NothingFar(s, r);
  }

  lemma WholeArrived(s: State, r: nat)
    requires InvAt(s, r) && HasUpTo(s, r, s.sent) && s.sent == LastReliable(s.packets)
    ensures r == s.sent
  {
    hide *;
    InvMeans(s, r);
    QueueOf(s.packets, s.channel, r, s.sent);
    if r < s.sent {
      forall t | 0 <= t < |s.packets| ensures s.packets[t].last <= s.sent {
        LastIsLast(s.packets, t);
      }
      HasAll(s, r);
      FirstIsReady(s.packets, s.channel.reliables, r, s.sent, s.sent);
      NotReady(s.channel);
    }
  }

  lemma HasAll(s: State, r: nat)
    requires HasUpTo(s, r, s.sent)
    ensures forall i :: r < i <= s.sent ==> Has(s.packets, s.channel.reliables, r, i)
  {
    hide Has;
  }

  lemma NothingFar(s: State, r: nat)
    requires Quiet(s, r) && r == s.sent
    ensures s.unacked == {}
  {
    forall j | j in s.unacked ensures false {
      KeptMeans(s, r, j);
      WinMonotone(j, r);
    }
  }

  lemma OrderedSo(packets: seq<Packet>, a: nat, b: nat)
    requires History(packets) && a < |packets| && b < |packets| && packets[a].Reliable() && packets[b].Reliable()
    requires packets[b].first <= packets[a].last < packets[b].last
    ensures a == b
  {
    hide History;
    if a < b {
      HistoryOrder(packets, a, b);
    } else if b < a {
      HistoryOrder(packets, b, a);
      NumbersOrdered(packets, a);
    }
  }

  lemma UpToArrived(s: State, r: nat, tag: nat)
    requires InvAt(s, r) && tag < |s.packets| && s.packets[tag].Reliable() && s.packets[tag].last <= r
    ensures Arrived(s, tag)
  {
    InvMeans(s, r);
    hide InvAt, ChannelInv, History, Dispatched;
    TagsUpToHas(s.packets, |s.packets|, r, tag);
    ReliableTagsHave(s.packets, s.out, tag);
  }

  /** From a quiet state, m commands are sent for the first time. */
  lemma {:induction false} SendUpTo(s: State, r: nat, m: nat, most: nat) returns (t: State, r': nat, n: nat)
    requires Quiet(s, r) && Accepts(s.packets) && s.sent <= m <= LastReliable(s.packets) && most <= MAXIMUM_WINDOW_SIZE
    requires forall tag :: 0 <= tag < |s.packets| && s.packets[tag].Reliable() && s.sent < s.packets[tag].last && s.packets[tag].first <= m ==>
      !TooLong(s.packets[tag], most)
    ensures Goes(s, t, n, most) && Quiet(t, r') && t.packets == s.packets && t.sent == m
    decreases m - s.sent
  {
    hide *;
    if s.sent == m {
      t, r', n := s, r, 0;
      GoesNowhere(s, most);
    } else {
      QuietMeans(s, r);
      var tag := NextBegins(s, r, s.sent);
      var u, r1, k := OneMore(s, r, tag, most);
      var j;
      t, r', j := SendUpTo(u, r1, m, most);
      GoesAll(s, u, k, t, j, most);
      n := k + j;
    }
  }

  /** A packet can arrive if none is too long of those up to it that have not arrived. */
  lemma CanArrive(s: State, tag: nat, most: nat) returns (t: State, n: nat)
    requires Inv(s) && Accepts(s.packets) && Retrievable(s) && most <= MAXIMUM_WINDOW_SIZE
    requires tag < |s.packets| && s.packets[tag].Reliable()
    requires forall b :: 0 <= b <= tag && s.packets[b].Reliable() && !Arrived(s, b) ==> !TooLong(s.packets[b], most)
    ensures Goes(s, t, n, most) && Arrived(t, tag)
  {
    hide *;
    var r, k, r';
    t, r, k := QuietDown(s, most);
    n := k;
    var last := s.packets[tag].last;
    QuietMeans(t, r);
    InvMeans(t, r);
    if t.sent < last {
      LastIsLast(t.packets, tag);
      forall b | 0 <= b < |t.packets| && t.packets[b].Reliable() && t.sent < t.packets[b].last && t.packets[b].first <= last
        ensures !TooLong(t.packets[b], most)
      {
        NotBehind(t.packets, b, tag);
        if Arrived(s, b) {
          ArrivedIsSent(s, b);
        }
      }
      var u := t;
      t, r', k := SendUpTo(u, r, last, most);
      GoesAll(s, u, n, t, k, most);
      n := n + k;
      SentIsArrived(t, r', tag);
    } else {
      SentIsArrived(t, r, tag);
    }
  }

  lemma NotBehind(packets: seq<Packet>, b: nat, tag: nat)
    requires History(packets) && b < |packets| && tag < |packets| && packets[b].Reliable() && packets[b].first <= packets[tag].last
    ensures b <= tag
  {
    hide History;
    if tag < b {
      HistoryOrder(packets, tag, b);
    }
  }

  /** If none is too long that has not arrived, all can arrive and be acknowledged. */
  lemma AllCanArrive(s: State, most: nat) returns (t: State, n: nat)
    requires Inv(s) && Accepts(s.packets) && Retrievable(s) && most <= MAXIMUM_WINDOW_SIZE
    requires forall b :: 0 <= b < |s.packets| && s.packets[b].Reliable() && !Arrived(s, b) ==> !TooLong(s.packets[b], most)
    ensures Goes(s, t, n, most) && t.packets == s.packets && t.sent == LastReliable(t.packets) && t.unacked == {}
    ensures Delivered(t.out) == Accepted(t.packets)
  {
    hide *;
    var r, k, r';
    t, r, n := QuietDown(s, most);
    QuietMeans(t, r);
    var u := t;
    forall b | 0 <= b < |u.packets| && u.packets[b].Reliable() && u.sent < u.packets[b].last ensures !TooLong(u.packets[b], most) {
      if Arrived(s, b) {
        ArrivedIsSent(s, b);
      }
    }
    t, r', k := SendUpTo(u, r, LastReliable(u.packets), most);
    GoesAll(s, u, n, t, k, most);
    n := n + k;
    WholeSent(t, r');
    QuietMeans(t, r');
    StandsAt(t, r');
    DeliversAll(t);
  }

  // ---- with unreliable packets around

  /** From s, the steps of some run lead to t, with no more than most bytes in flight. */
  ghost predicate Leads(s: State, t: State, n: nat, most: nat)
    decreases n
  {
    if n == 0 then s == t else exists m: State, step: Step :: Leads(s, m, n - 1, most) && Next(m, step, t) && Within(step, most)
  }

  ghost predicate Sound(s: State) { Inv(Half(s)) && Sorted(s) }

  lemma SoundKeeps(s: State, step: Step, t: State)
    requires Sound(s) && Next(s, step, t)
    ensures Sound(t)
    ensures Half(t) == Half(s) || (Next(Half(s), step, Half(t)) && Timely(Half(s), step))
  {
    hide Inv, Half, Sorted, Next, Timely, BringsUnreliable;
    if BringsUnreliable(s, step) {
      UnreliableStep(s, step, t);
    } else {
      ReliableStep(s, step, t);
      NextKeeps(Half(s), step, Half(t));
    }
  }

  /** A step of the reliable half can be made on the whole. */
  lemma Lifted(s: State, step: Step, h: State) returns (t: State)
    requires Sound(s) && Next(Half(s), step, h) && !BringsUnreliable(Half(s), step)
    ensures Next(s, step, t) && Half(t) == h && Sound(t)
  {
    hide *;
    if step.Deliver? {
      t := LiftedDelivery(s, step, h);
    } else {
      t := LiftedSender(s, step, h);
    }
    SoundKeeps(s, step, t);
  }

  lemma LiftedSender(s: State, step: Step, h: State) returns (t: State)
    requires Next(Half(s), step, h) && !step.Deliver?
    ensures Next(s, step, t) && Half(t) == h
  {
    hide NewPacket, WindowWraps, InTransit, Lengths, OnlyReliable, LastReliable, Num;
    t := s.(packets := h.packets, sent := h.sent, unacked := h.unacked);
  }

  lemma LiftedDelivery(s: State, step: Step, h: State) returns (t: State)
    requires Sound(s) && Next(Half(s), step, h) && !BringsUnreliable(Half(s), step) && step.Deliver?
    ensures Next(s, step, t) && Half(t) == h
  {
    hide *;
    SoundMeans(s);
    HalfMeans(s);
    HalfBits(s.channel);
    HalfParts(s);
    if step.tag < |s.packets| {
      NumbersOrdered(s.packets, step.tag);
    }
    DeliverMeans(Half(s), h, step.tag, step.piece, step.room, step.maximumPacketSize);
    var p := s.packets[step.tag];
    BringsReliable(s, step);
    var c := p.Wire(step.tag, step.piece);
    var a := Receive(s.channel, c, step.room, step.maximumPacketSize);
    t := s.(channel := a.channel, out := s.out + a.out, acks := if Acknowledges(a, c) then s.acks + {p.first + step.piece} else s.acks);
    MakesStep(s, step, t);
    ReliableStep(s, step, t);
    DeliverMeans(Half(s), Half(t), step.tag, step.piece, step.room, step.maximumPacketSize);
  }

  lemma SoundMeans(s: State)
    requires Sound(s)
    ensures Inv(Half(s)) && Sorted(s)
  {
  }

  lemma HalfParts(s: State)
    ensures Half(s).packets == s.packets && Half(s).channel == Halved(s.channel) && Half(s).sent == s.sent
  {
  }

  lemma BringsReliable(s: State, step: Step)
    requires step.Deliver? && step.tag < |s.packets| && !BringsUnreliable(Half(s), step)
    ensures s.packets[step.tag].Reliable() && !BringsUnreliable(s, step) && Fresh(Half(s), s.packets[step.tag]) == Fresh(s, s.packets[step.tag])
  {
  }

  lemma MakesStep(s: State, step: Step, t: State)
    requires step.Deliver? && step.tag < |s.packets| && step.piece < s.packets[step.tag].Pieces() && s.packets[step.tag].Ok()
    requires s.packets[step.tag].Reliable() && Fresh(s, s.packets[step.tag]) && s.packets[step.tag].first + step.piece <= s.sent
    requires BitsOk(s.channel.reliables) && BitsOk(s.channel.unreliables)
    requires var c := s.packets[step.tag].Wire(step.tag, step.piece);
      var a := Receive(s.channel, c, step.room, step.maximumPacketSize);
      t == s.(channel := a.channel, out := s.out + a.out,
              acks := if Acknowledges(a, c) then s.acks + {s.packets[step.tag].first + step.piece} else s.acks)
    ensures Next(s, step, t)
  {
    hide Receive, Packet.Wire, Packet.Ok, Packet.Pieces, BitsOk, Acknowledges, Fresh;
  }

  lemma {:induction false} LiftedRun(s: State, h: State, n: nat, most: nat) returns (t: State)
    requires Sound(s) && Goes(Half(s), h, n, most)
    ensures Leads(s, t, n, most) && Half(t) == h && Sound(t)
    decreases n
  {
    hide Next, Within, BringsUnreliable, Half, Sound;
    if n == 0 {
      t := s;
    } else {
      var m: State, step: Step :| Goes(Half(s), m, n - 1, most) && Next(m, step, h) && Within(step, most) && !BringsUnreliable(m, step);
      var u := LiftedRun(s, m, n - 1, most);
      t := Lifted(u, step, h);
    }
  }

  /** What is too long stays away, whatever steps are made. */
  lemma {:induction false} LeadsKeepsAway(s: State, t: State, n: nat, tag: nat, most: nat)
    requires Sound(s) && Bounded(Half(s), most) && Leads(s, t, n, most)
    requires tag < |s.packets| && TooLong(s.packets[tag], most) && !Arrived(Half(s), tag)
    ensures Sound(t) && Bounded(Half(t), most) && tag < |t.packets| && t.packets[tag] == s.packets[tag] && !Arrived(Half(t), tag)
    ensures s.packets <= t.packets
    decreases n
  {
    hide Next, Inv, Within, TooLong, Arrived, Bounded, Half, Sorted, Timely, Sound;
    if n > 0 {
      var m: State, step: Step :| Leads(s, m, n - 1, most) && Next(m, step, t) && Within(step, most);
      LeadsKeepsAway(s, m, n - 1, tag, most);
      SoundKeeps(m, step, t);
      HalfParts(m);
      HalfParts(t);
      SoundMeans(m);
      if Half(t) != Half(m) {
        StepMeans(Half(m), step, Half(t));
        StepKeepsAway(Half(m), step, Half(t), tag, most);
        BoundedKeeps(Half(m), step, Half(t), most);
      }
    }
  }

  lemma {:induction false} RunAccepts(states: seq<State>, steps: seq<Step>, k: nat)
    requires Run(states, steps) && k < |states|
    ensures Accepts(states[k].packets) && Sound(states[k])
  {
    hide Next, Inv, Half, Sorted, Packet.Count;
    HalvesKeep(states, steps, k);
    if k > 0 {
      RunAccepts(states, steps, k - 1);
      assert Next(states[k - 1], steps[k - 1], states[k]);
      AcceptsStep(states[k - 1], steps[k - 1], states[k]);
    }
  }

  lemma AcceptsStep(s: State, step: Step, t: State)
    requires Accepts(s.packets) && Sound(s) && Next(s, step, t)
    ensures Accepts(t.packets)
  {
    hide Inv, Half, Sorted, NewPacket, WindowWraps, InTransit, Lengths, Packet.Count, Sound;
    if step.Deliver? {
      SoundMeans(s);
      HalfMeans(s);
      if step.tag < |s.packets| {
        NumbersOrdered(s.packets, step.tag);
      }
      DeliverMeans(s, t, step.tag, step.piece, step.room, step.maximumPacketSize);
    }
  }

  /** What a run that keeps within most can still deliver: in every state in which nothing is lost to the
      sender, a reliable packet can arrive if and only if it has arrived, or none is too long of those up
      to it that have not. */
  lemma ArrivalIsExact(states: seq<State>, steps: seq<Step>, k: nat, tag: nat, most: nat)
    requires Run(states, steps) && k < |states| && most <= MAXIMUM_WINDOW_SIZE && forall j :: 0 <= j < |steps| ==> Within(steps[j], most)
    requires tag < |states[k].packets| && states[k].packets[tag].Reliable() && Retrievable(states[k])
    ensures var s := states[k];
      (exists t: State, n: nat :: Leads(s, t, n, most) && Arrived(t, tag)) <==>
        Arrived(s, tag) || forall b :: 0 <= b <= tag && s.packets[b].Reliable() && !Arrived(s, b) ==> !TooLong(s.packets[b], most)
  {
    hide *;
    var s := states[k];
    RunAccepts(states, steps, k);
    HalvesBounded(states, steps, k, most);
    if Arrived(s, tag) {
      LeadsNowhere(s, most);
      assert Leads(s, s, 0, most) && Arrived(s, tag);
    } else if b :| 0 <= b <= tag && s.packets[b].Reliable() && !Arrived(s, b) && TooLong(s.packets[b], most) {
      StaysAway(s, b, tag, most);
    } else {
      var t, n := ArrivesFrom(s, tag, most);
      assert Leads(s, t, n, most) && Arrived(t, tag);
    }
  }

  lemma LeadsNowhere(s: State, most: nat)
    ensures Leads(s, s, 0, most)
  {
  }

  lemma StaysAway(s: State, b: nat, tag: nat, most: nat)
    requires Sound(s) && Bounded(Half(s), most) && b <= tag < |s.packets| && s.packets[b].Reliable() && s.packets[tag].Reliable()
    requires !Arrived(s, b) && TooLong(s.packets[b], most)
    ensures forall t: State, n: nat :: Leads(s, t, n, most) ==> !Arrived(t, tag)
  {
    hide *;
    SoundMeans(s);
    ArrivedHalf(s, b);
    forall t: State, n: nat | Leads(s, t, n, most) ensures !Arrived(t, tag) {
      LeadsKeepsAway(s, t, n, b, most);
      SoundMeans(t);
      HalfParts(t);
      PrefixAt(s.packets, t.packets, tag);
      ArrivedHalf(t, tag);
      if Arrived(t, tag) {
        ArrivedBefore(Half(t), b, tag);
      }
    }
  }

  lemma PrefixAt(a: seq<Packet>, b: seq<Packet>, k: nat)
    requires a <= b && k < |a|
    ensures k < |b| && b[k] == a[k]
  {
  }

  lemma ArrivesFrom(s: State, tag: nat, most: nat) returns (t: State, n: nat)
    requires Sound(s) && Accepts(s.packets) && Retrievable(s) && most <= MAXIMUM_WINDOW_SIZE
    requires tag < |s.packets| && s.packets[tag].Reliable()
    requires forall b :: 0 <= b <= tag && s.packets[b].Reliable() && !Arrived(s, b) ==> !TooLong(s.packets[b], most)
    ensures Leads(s, t, n, most) && Arrived(t, tag)
  {
    hide *;
    SoundMeans(s);
    HalfParts(s);
    HalfRetrievable(s);
    forall b | 0 <= b <= tag && s.packets[b].Reliable() && !Arrived(Half(s), b) ensures !TooLong(s.packets[b], most) {
      ArrivedHalf(s, b);
    }
    var h;
    h, n := CanArrive(Half(s), tag, most);
    t := LiftedRun(s, h, n, most);
    OnlySome(t.out);
    FromHalf(t, tag);
  }

  lemma HalfRetrievable(s: State)
    requires Retrievable(s)
    ensures Retrievable(Half(s))
  {
  }

  lemma FromHalf(s: State, tag: nat)
    requires Arrived(Half(s), tag) && forall j :: 0 <= j < |OnlyReliable(s.out)| ==> OnlyReliable(s.out)[j] in s.out
    ensures Arrived(s, tag)
  {
  }

  /** From every state of every run in which nothing is lost to the sender and no packet is too long that
      has not arrived, there are steps to a state in which everything accepted is delivered and acknowledged. */
  lemma EverythingCanArrive(states: seq<State>, steps: seq<Step>, k: nat, most: nat) returns (t: State, n: nat)
    requires Run(states, steps) && k < |states| && most <= MAXIMUM_WINDOW_SIZE && Retrievable(states[k])
    requires var s := states[k];
      forall b :: 0 <= b < |s.packets| && s.packets[b].Reliable() && !Arrived(s, b) ==> !TooLong(s.packets[b], most)
    ensures Leads(states[k], t, n, most) && t.packets == states[k].packets
    ensures t.sent == LastReliable(t.packets) && t.unacked == {} && Delivered(t.out) == Accepted(t.packets)
  {
    hide *;
    var s := states[k];
    RunAccepts(states, steps, k);
    SoundMeans(s);
    HalfParts(s);
    HalfRetrievable(s);
    forall b | 0 <= b < |s.packets| && s.packets[b].Reliable() && !Arrived(Half(s), b) ensures !TooLong(s.packets[b], most) {
      ArrivedHalf(s, b);
    }
    var h;
    h, n := AllCanArrive(Half(s), most);
    t := LiftedRun(s, h, n, most);
    HalfSame(t);
    SameDelivered(t.out);
  }

  lemma HalfSame(s: State)
    ensures Half(s).packets == s.packets && Half(s).sent == s.sent && Half(s).unacked == s.unacked && Half(s).out == OnlyReliable(s.out)
  {
  }

  /** Nothing is lost to the sender if no packet has numbers in more than four windows. */
  lemma ShortIsRetrievable(states: seq<State>, steps: seq<Step>, k: nat)
    requires Run(states, steps) && k < |states|
    requires forall p :: p in states[k].packets && p.Reliable() ==> Win(p.last) <= Win(p.first) + 3
    ensures Retrievable(states[k])
  {
    HalvesKeep(states, steps, k);
    hide Run, Has, Good, Idle, Win;
    var s := Half(states[k]);
    var r :| InvAt(s, r);
    forall i, tag | i in s.unacked && i !in s.acks && 0 <= tag < |s.packets| && s.packets[tag].Reliable()
      && s.packets[tag].first <= i <= s.packets[tag].last
      ensures Fresh(s, s.packets[tag])
    {
      WinMonotone(i, s.packets[tag].last);
      assert s.packets[tag] in s.packets;
    }
  }
}
