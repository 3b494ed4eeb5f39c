/** What holds in every run of one channel: the stream that the receiver dispatches, the distance that
    the windows keep, and what an acknowledgement is worth. */
module DeliveryTheorems {
  import opened Words
  import opened Arithmetic
  import opened FiniteSets
  import opened SequenceNumbers
  import opened IncomingChannel
  import opened DeliveryModel
  import opened DeliveryProof
  import opened DeliveryInvariant

  // ---- an acknowledgement

  /** enet_peer_queue_acknowledgement refuses just those commands that the handlers discarded as too
      far ahead: what is acknowledged is in the receiver's hands. */
  lemma AcknowledgedIsSecured(packets: seq<Packet>, t: Result, r: nat, sent: nat, i: nat)
    requires ChannelInv(packets, t.channel, r, sent) && i <= sent && TakenOrFar(packets, t, r, i) && t.ok
    requires Acknowledged(Num(i), t.channel.incoming)
    ensures Secured(packets, t.channel.reliables, r, i)
  {
    hide ReliableQueue, UnreliableSettled, Boundary, Num, Acknowledged, OutOfReach;
    if i <= r {
      WinMonotone(i, r);
    } else {
      if OutOfReach(packets, r, i) {
        ReachNot(packets, r, i);
      }
      WinMonotone(i, sent);
      AheadOf(i, r);
    }
  }

  // ---- the invariant

  /** Everything sent and no longer kept for retransmission is secured, and so is everything
      acknowledged; what is kept is less than seven windows old. */
  ghost predicate SenderInv(s: State, r: nat) {
    && s.sent <= LastReliable(s.packets)
    && (forall i :: i in s.acks ==> 1 <= i <= s.sent && Secured(s.packets, s.channel.reliables, r, i))
    && (forall i :: 1 <= i <= s.sent && i !in s.unacked ==> Secured(s.packets, s.channel.reliables, r, i))
    && (forall i :: i in s.unacked ==> 1 <= i <= s.sent && Win(s.sent) < Win(i) + FREE_WINDOWS - 1)
  }

  /** No complete packet whose turn it is waits in the queue. */
  ghost predicate Idle(ch: Channel) {
    ReadyCount(ch.reliables, ch.incoming) == 0
  }

  ghost predicate InvAt(s: State, r: nat) {
    && Good(s.packets, s.channel, r, s.sent, s.out)
    && SenderInv(s, r)
    && Idle(s.channel)
  }

  ghost predicate Inv(s: State) {
    exists r :: InvAt(s, r)
  }

  lemma StartInv()
    ensures InvAt(Start(), 0)
  {
    var s := Start();
    assert ReliableTags(s.packets, s.out) == TagsUpTo(s.packets, 0, 0) == [];
  }

  // ---- enet_peer_send

  lemma HistoryGrows(packets: seq<Packet>, p: Packet)
    requires History(packets) && Follows(packets, p)
    ensures History(packets + [p])
  {
    hide Follows;
    var all := packets + [p];
    forall k | 0 <= k < |all| ensures Follows(all[..k], all[k]) {
      if k < |packets| {
        assert all[..k] == packets[..k];
      } else {
        assert all[..k] == packets;
      }
    }
  }

  lemma {:induction false} TagsUpToGrows(packets: seq<Packet>, p: Packet, n: nat, r: nat)
    requires n <= |packets|
    ensures TagsUpTo(packets + [p], n, r) == TagsUpTo(packets, n, r)
  {
    if n > 0 {
      TagsUpToGrows(packets, p, n - 1, r);
    }
  }

  lemma {:induction false} ReliableTagsGrow(packets: seq<Packet>, p: Packet, out: seq<Incoming>)
    requires forall k :: 0 <= k < |out| ==> out[k].tag < |packets|
    ensures ReliableTags(packets + [p], out) == ReliableTags(packets, out)
  {
    if out != [] {
      ReliableTagsGrow(packets, p, out[..|out| - 1]);
    }
  }

  /** A new packet's numbers lie beyond everything sent, so it changes nothing for the receiver. */
  lemma ChannelInvGrows(packets: seq<Packet>, p: Packet, ch: Channel, r: nat, sent: nat)
    requires ChannelInv(packets, ch, r, sent) && Follows(packets, p) && sent <= LastReliable(packets)
    ensures ChannelInv(packets + [p], ch, r, sent)
  {
    hide EntryOk, Num, Win;
    var all := packets + [p];
    forall k | 0 <= k < |ch.reliables| ensures ReliableEntry(all, ch.reliables[k], r, sent) {
      assert ReliableEntry(packets, ch.reliables[k], r, sent);
    }
    forall k | 0 <= k < |ch.unreliables| ensures UnreliableEntry(all, ch.unreliables[k], r) && Waiting(all, ch.unreliables[k], r) {
      assert UnreliableEntry(packets, ch.unreliables[k], r) && Waiting(packets, ch.unreliables[k], r);
    }
  }

  lemma OutInvGrows(packets: seq<Packet>, p: Packet, out: seq<Incoming>, r: nat, iu: nat)
    requires OutInv(packets, out, r, iu) && Follows(packets, p) && r <= LastReliable(packets)
    ensures OutInv(packets + [p], out, r, iu)
  {
    var all := packets + [p];
    forall k | 0 <= k < |out| ensures Dispatched(all, out[k], r, iu) && out[k].tag < |packets| {
      assert Dispatched(packets, out[k], r, iu);
    }
    TagsUpToGrows(packets, p, |packets|, r);
    ReliableTagsGrow(packets, p, out);
  }

  lemma SecuredGrows(packets: seq<Packet>, p: Packet, q: seq<Incoming>, r: nat, i: nat)
    requires Secured(packets, q, r, i)
    ensures Secured(packets + [p], q, r, i)
  {
    if i > r {
      var k :| 0 <= k < |q| && HoldsNumber(packets, q[k], i);
      assert HoldsNumber(packets + [p], q[k], i);
    }
  }

  lemma SendKeeps(s: State, r: nat, p: Packet)
    requires InvAt(s, r) && Follows(s.packets, p)
    ensures InvAt(s.(packets := s.packets + [p]), r)
  {
    hide ChannelInv, OutInv, Secured, Packet.Ok, History;
    SettledOf(s.packets, s.channel, r, s.sent);
    HistoryGrows(s.packets, p);
    ChannelInvGrows(s.packets, p, s.channel, r, s.sent);
    OutInvGrows(s.packets, p, s.out, r, s.channel.unreliable);
    forall i: nat | Secured(s.packets, s.channel.reliables, r, i) ensures Secured(s.packets + [p], s.channel.reliables, r, i) {
      SecuredGrows(s.packets, p, s.channel.reliables, r, i);
    }
    assert LastReliable(s.packets) <= LastReliable(s.packets + [p]) by {
      PacketOrder(p);
    }
  }

  lemma PacketOrder(p: Packet)
    requires p.Ok()
    ensures p.first <= p.last
  {
  }

  // ---- the first sending of a command

  /** If the count of a whole window falls short of its size, one of its commands is no longer kept. */
  lemma NotFull(unacked: set<nat>, w: nat)
    requires |InFlight(unacked, w % WINDOWS)| < WINDOW_SIZE
    ensures exists j :: Win(j) == w && j !in unacked
  {
    if forall j :: Win(j) == w ==> j in unacked {
      var all := Interval(w * WINDOW_SIZE, WINDOW_SIZE);
      forall j | j in all ensures j in InFlight(unacked, w % WINDOWS) {
        assert Win(j) == w;
        NumWin(j);
      }
      SubsetSize(all, InFlight(unacked, w % WINDOWS));
    }
  }

  /** The window test keeps the sender less than eight windows ahead of the receiver, and what it still
      keeps less than seven windows behind it. */
  lemma FirstSendInReach(s: State, r: nat)
    requires SenderInv(s, r) && r <= s.sent && Win(s.sent) < Win(r) + FREE_WINDOWS && !WindowWraps(s.unacked, Num(s.sent + 1))
    ensures Win(s.sent + 1) < Win(r) + FREE_WINDOWS
    ensures forall j :: j in s.unacked ==> Win(s.sent + 1) < Win(j) + FREE_WINDOWS - 1
  {
    hide Has, Num, Secured;
    var n, w := s.sent + 1, Win(s.sent + 1);
    if n % WINDOW_SIZE == 0 {
      WindowStarts(n);
      forall j | j in s.unacked ensures w < Win(j) + FREE_WINDOWS - 1 {
        if w == Win(j) + FREE_WINDOWS - 1 {
          OldestWindow(s.unacked, n, j);
          assert false;
        }
      }
      if w > FREE_WINDOWS - 1 {
        NotFull(s.unacked, w - 1);
        var j :| Win(j) == w - 1 && j !in s.unacked;
        SecuredIsNear(s.packets, s.channel.reliables, r, j);
      }
    }
  }

  lemma SecuredIsNear(packets: seq<Packet>, q: seq<Incoming>, r: nat, i: nat)
    ensures Secured(packets, q, r, i) ==> Win(i) < Win(r) + FREE_WINDOWS - 1
  {
  }

  lemma ChannelInvSent(packets: seq<Packet>, ch: Channel, r: nat, sent: nat, sent': nat)
    requires ChannelInv(packets, ch, r, sent) && sent <= sent' && Win(sent') < Win(r) + FREE_WINDOWS
    ensures ChannelInv(packets, ch, r, sent')
  {
    hide EntryOk, UnreliableSettled, Num, Win;
    forall k | 0 <= k < |ch.reliables| ensures ReliableEntry(packets, ch.reliables[k], r, sent') {
      assert ReliableEntry(packets, ch.reliables[k], r, sent);
    }
  }

  lemma FirstSendKeeps(s: State, r: nat)
    requires InvAt(s, r) && s.sent < LastReliable(s.packets) && !WindowWraps(s.unacked, Num(s.sent + 1))
    ensures InvAt(s.(sent := s.sent + 1, unacked := s.unacked + {s.sent + 1}), r)
  {
    SettledOf(s.packets, s.channel, r, s.sent);
    hide ChannelInv, OutInv, Secured, History, WindowWraps, Num;
    FirstSendInReach(s, r);
    ChannelInvSent(s.packets, s.channel, r, s.sent, s.sent + 1);
  }

  // ---- a delivery

  lemma ReceiveOutcome(s: State, r: nat, tag: nat, piece: nat, room: bool, maximumPacketSize: nat, i: nat)
    requires Good(s.packets, s.channel, r, s.sent, s.out)
    requires tag < |s.packets| && piece < s.packets[tag].Pieces() && Fresh(s, s.packets[tag])
    requires !s.packets[tag].Reliable() ==> Win(s.packets[tag].first) <= Win(s.sent) + FARTHEST
    requires s.packets[tag].Reliable() ==> i == s.packets[tag].first + piece <= s.sent
    requires !s.packets[tag].Reliable() ==> i == 0
    requires s.packets[tag].Ok() && BitsOk(s.channel.reliables) && BitsOk(s.channel.unreliables)
    ensures var t := Receive(s.channel, s.packets[tag].Wire(tag, piece), room, maximumPacketSize);
      Outcome(s.packets, s.channel, r, s.sent, s.out, t, i)
  {
    hide *;
    var p := s.packets[tag];
    UnreliableKind(p);
    WireKind(p, tag, piece);
    FreshMeans(s, p);
    ReceiveIs(s.channel, p.Wire(tag, piece), room, maximumPacketSize);
    if |p.Wire(tag, piece).data| > maximumPacketSize {
      Refused(s.packets, s.channel, r, s.sent, s.out, i);
    } else if p.kind == SendReliable {
      ReceiveReliableKeeps(s.packets, s.channel, r, s.sent, s.out, tag, room);
    } else if p.kind == SendFragment {
      ReceiveFragmentKeeps(s.packets, s.channel, r, s.sent, s.out, tag, piece, room, maximumPacketSize);
    } else if p.kind == SendUnreliable {
      ReceiveUnreliableKeeps(s.packets, s.channel, r, s.sent, s.out, tag, room);
    } else {
      ReceiveUnreliableFragmentKeeps(s.packets, s.channel, r, s.sent, s.out, tag, piece, room, maximumPacketSize);
    }
  }

  lemma FreshMeans(s: State, p: Packet)
    requires Fresh(s, p)
    ensures Win(s.sent) <= Win(p.first) + OLDEST
  {
  }

  lemma ReceiveIs(ch: Channel, c: Command, room: bool, maximumPacketSize: nat)
    requires BitsOk(ch.reliables) && BitsOk(ch.unreliables)
    ensures Receive(ch, c, room, maximumPacketSize) ==
      if |c.data| > maximumPacketSize then Result(false, ch, [])
      else if c.kind == SendReliable then ReceiveReliable(ch, c, room)
      else if c.kind == SendFragment then ReceiveFragment(ch, c, room, maximumPacketSize)
      else if c.kind == SendUnreliable then ReceiveUnreliable(ch, c, room)
      else ReceiveUnreliableFragment(ch, c, room, maximumPacketSize)
  {
    hide ReceiveReliable, ReceiveFragment, ReceiveUnreliable, ReceiveUnreliableFragment;
  }

  lemma WireKind(p: Packet, tag: nat, f: nat)
    requires p.Ok() && f < p.Pieces()
    ensures p.Wire(tag, f).kind == p.kind
    ensures p.Fragmented() ==> p.Count() == p.Pieces()
    ensures !p.Fragmented() ==> f == 0
    ensures p.Reliable() ==> p.Wire(tag, f).reliable == Num(p.first + f)
  {
    if p.Fragmented() {
      SomePieces(p);
    }
  }

  /** Handlers leave nothing in the queue whose turn it is. */
  lemma DispatchIdle(ch: Channel)
    ensures Idle(DispatchReliable(ch).0)
  {
    hide LastNumber;
    AllReady(ch.reliables, ch.incoming);
    hide DispatchUnreliable;
    var k, d := ReadyCount(ch.reliables, ch.incoming), DispatchReliable(ch).0;
    if k == 0 {
      assert d == ch;
    } else {
      DispatchKeepsReliables(ch.(incoming := ReadyNumber(ch.reliables, ch.incoming), unreliable := 0, reliables := ch.reliables[k..]), -1);
    }
  }

  lemma {:induction false} AllReady(q: seq<Incoming>, incoming: uint16)
    ensures ReadyCount(q[ReadyCount(q, incoming)..], ReadyNumber(q, incoming)) == 0
    decreases |q|
  {
    var k := ReadyCount(q, incoming);
    if k == 0 {
      assert q[0..] == q;
    } else {
      AllReady(q[1..], LastNumber(q[0]));
      assert q[k..] == q[1..][k - 1..];
    }
  }

  lemma DispatchKeepsReliables(ch: Channel, queued: int)
    ensures var d := DispatchUnreliable(ch, queued).0; d.reliables == ch.reliables && d.incoming == ch.incoming
  {
    hide ScanAll, Kept;
  }

  lemma TakeFragmentIdle(ch: Channel, i: nat, c: Command, out: seq<Incoming>)
    requires BitsOk(ch.reliables) && i < |ch.reliables| && SamePacket(ch.reliables[i], c)
    requires c.fragment < c.count && c.offset + |c.data| <= c.total
    requires Idle(ch)
    ensures Idle(TakeFragment(ch, i, c, out).channel)
  {
    var f := AddFragment(ch.reliables[i], c);
    DispatchIdle(ch.(reliables := ch.reliables[i := f]));
    hide DispatchReliable;
  }

  lemma ReceiveIdle(ch: Channel, c: Command, room: bool, maximumPacketSize: nat)
    requires BitsOk(ch.reliables) && BitsOk(ch.unreliables) && Idle(ch)
    ensures Idle(Receive(ch, c, room, maximumPacketSize).channel)
  {
    hide Idle, InWindow, FragmentFits;
    match c.kind
    case SendReliable => ReliableIdle(ch, c, room);
    case SendFragment => FragmentIdle(ch, c, room, maximumPacketSize);
    case SendUnreliable => UnreliableIdle(ch, c, room);
    case SendUnreliableFragment => UnreliableFragmentIdle(ch, c, room, maximumPacketSize);
  }

  lemma ReliableIdle(ch: Channel, c: Command, room: bool)
    requires Idle(ch)
    ensures Idle(ReceiveReliable(ch, c, room).channel)
  {
    hide Idle, InWindow, NewIncoming, DispatchReliable, SearchReliable;
    var place := SearchReliable(ch.reliables, c.reliable, ch.incoming, |ch.reliables|);
    DispatchIdle(ch.(reliables := Insert(ch.reliables, place.index, NewIncoming(c, c.reliable, 0))));
  }

  lemma FragmentIdle(ch: Channel, c: Command, room: bool, maximumPacketSize: nat)
    requires BitsOk(ch.reliables) && c.kind == SendFragment && Idle(ch)
    ensures Idle(ReceiveFragment(ch, c, room, maximumPacketSize).channel)
  {
    var place := SearchReliable(ch.reliables, c.start, ch.incoming, |ch.reliables|);
    if FragmentFits(c, maximumPacketSize) {
      if place.At? && SamePacket(ch.reliables[place.index], c) {
        TakeFragmentIdle(ch, place.index, c, []);
      } else if !place.At? {
        QueueFragmentIdle(ch, place.index, c);
      }
    }
    hide Idle, InWindow, QueueFragment, TakeFragment, SearchReliable;
  }

  lemma QueueFragmentIdle(ch: Channel, i: nat, c: Command)
    requires BitsOk(ch.reliables) && c.kind == SendFragment && i <= |ch.reliables|
    requires c.fragment < c.count && c.offset + |c.data| <= c.total
    ensures Idle(QueueFragment(ch, i, c).channel)
  {
    hide *;
    var q := Insert(ch.reliables, i, NewIncoming(c, c.start, 0));
    QueueFragmentSteps(ch, i, c);
    DispatchIdle(ch.(reliables := q));
    TakeFragmentIdle(DispatchReliable(ch.(reliables := q)).0, i - ReadyCount(q, ch.incoming), c, []);
  }

  lemma UnreliableIdle(ch: Channel, c: Command, room: bool)
    requires Idle(ch)
    ensures Idle(ReceiveUnreliable(ch, c, room).channel)
  {
    var place := SearchUnreliable(ch.unreliables, c.reliable, c.start, ch.incoming, |ch.unreliables|);
    DispatchKeepsReliables(ch.(unreliables := Insert(ch.unreliables, place.index, NewIncoming(c, c.reliable, c.start))), place.index);
    hide InWindow, NewIncoming, DispatchUnreliable, SearchUnreliable, ReadyCount;
  }

  lemma UnreliableFragmentIdle(ch: Channel, c: Command, room: bool, maximumPacketSize: nat)
    requires BitsOk(ch.unreliables) && Idle(ch) && c.kind == SendUnreliableFragment
    ensures Idle(ReceiveUnreliableFragment(ch, c, room, maximumPacketSize).channel)
  {
    hide InWindow, SearchUnreliable, ReadyCount;
    var place := SearchUnreliable(ch.unreliables, c.reliable, c.start, ch.incoming, |ch.unreliables|);
    if FragmentFits(c, maximumPacketSize) {
      if place.At? && SamePacket(ch.unreliables[place.index], c) {
        TakeUnreliableIdle(ch, place.index, c, []);
      }
      QueueUnreliableIdle(ch, place.index, c);
    }
    hide TakeUnreliableFragment, QueueUnreliableFragment;
  }

  lemma QueueUnreliableIdle(ch: Channel, i: nat, c: Command)
    requires i <= |ch.unreliables| && c.kind == SendUnreliableFragment && c.fragment < c.count && c.offset + |c.data| <= c.total
    ensures var d := QueueUnreliableFragment(ch, i, c).channel; d.reliables == ch.reliables && d.incoming == ch.incoming
  {
    hide *;
    var next := ch.(unreliables := Insert(ch.unreliables, i, NewIncoming(c, c.reliable, c.start)));
    QueueUnreliableSteps(ch, i, c);
    DispatchKeepsReliables(next, i);
    TakeUnreliableIdle(DispatchUnreliable(next, i).0, PlaceOf(next, i), c, []);
  }

  lemma TakeUnreliableIdle(ch: Channel, i: nat, c: Command, out: seq<Incoming>)
    requires i < |ch.unreliables| && SamePacket(ch.unreliables[i], c) && |ch.unreliables[i].got| == c.count
    requires c.fragment < c.count && c.offset + |c.data| <= c.total
    ensures var d := TakeUnreliableFragment(ch, i, c, out).channel; d.reliables == ch.reliables && d.incoming == ch.incoming
  {
    hide DispatchUnreliable;
    DispatchKeepsReliables(ch.(unreliables := ch.unreliables[i := AddFragment(ch.unreliables[i], c)]), -1);
  }

  /** The receiver keeps what it has, and takes what arrives unless it refuses it or is not yet in reach of it. */
  ghost predicate Carried(s: State, r: nat, t: State, r': nat) {
    r <= r' && forall i :: Has(s.packets, s.channel.reliables, r, i) ==> Has(s.packets, t.channel.reliables, r', i)
  }

  lemma DeliverKeeps(s: State, r: nat, t: State, tag: nat, piece: nat, room: bool, maximumPacketSize: nat) returns (r': nat)
    requires InvAt(s, r) && Next(s, Deliver(tag, piece, room, maximumPacketSize), t)
    requires Timely(s, Deliver(tag, piece, room, maximumPacketSize))
    ensures InvAt(t, r') && Carried(s, r, t, r')
    ensures tag < |s.packets| && piece < s.packets[tag].Pieces() && s.packets[tag].Ok()
    ensures BitsOk(s.channel.reliables) && BitsOk(s.channel.unreliables)
    ensures s.packets[tag].Reliable() ==>
      var a := Receive(s.channel, s.packets[tag].Wire(tag, piece), room, maximumPacketSize);
      TakenOrFar(s.packets, a, r', s.packets[tag].first + piece)
  {
    hide *;
    IsDelivery(s, t, tag, piece, room, maximumPacketSize);
    var p := s.packets[tag];
    InvMeans(s, r);
    NumbersOrdered(s.packets, tag);
    EntriesHaveBits(s.packets, s.channel, r, s.sent);
    DeliverMeans(s, t, tag, piece, room, maximumPacketSize);
    TimelyMeans(s, tag, piece, room, maximumPacketSize);
    var i := if p.Reliable() then p.first + piece else 0;
    ReceiveOutcome(s, r, tag, piece, room, maximumPacketSize, i);
    var c := p.Wire(tag, piece);
    ReceiveIdle(s.channel, c, room, maximumPacketSize);
    WireKind(p, tag, piece);
    r' := OutcomeKeeps(s, r, t, tag, piece, c, Receive(s.channel, c, room, maximumPacketSize), i);
  }

  lemma IsDelivery(s: State, t: State, tag: nat, piece: nat, room: bool, maximumPacketSize: nat)
    requires Next(s, Deliver(tag, piece, room, maximumPacketSize), t)
    ensures tag < |s.packets| && piece < s.packets[tag].Pieces()
  {
    hide Receive, Packet.Wire, Acknowledges, Packet.Ok, BitsOk, Fresh, Packet.Pieces;
  }

  lemma TimelyMeans(s: State, tag: nat, piece: nat, room: bool, maximumPacketSize: nat)
    requires Timely(s, Deliver(tag, piece, room, maximumPacketSize)) && tag < |s.packets|
    ensures !s.packets[tag].Reliable() ==> Fresh(s, s.packets[tag]) && Win(s.packets[tag].first) <= Win(s.sent) + FARTHEST
  {
  }

  lemma InvMeans(s: State, r: nat)
    requires InvAt(s, r)
    ensures History(s.packets) && ChannelInv(s.packets, s.channel, r, s.sent) && OutInv(s.packets, s.out, r, s.channel.unreliable)
    ensures Good(s.packets, s.channel, r, s.sent, s.out) && SenderInv(s, r) && Idle(s.channel)
  {
  }

  lemma DeliverMeans(s: State, t: State, tag: nat, piece: nat, room: bool, maximumPacketSize: nat)
    requires Next(s, Deliver(tag, piece, room, maximumPacketSize), t)
    requires tag < |s.packets| ==> s.packets[tag].Ok() && BitsOk(s.channel.reliables) && BitsOk(s.channel.unreliables)
    ensures tag < |s.packets| && piece < s.packets[tag].Pieces()
    ensures s.packets[tag].Reliable() ==> Fresh(s, s.packets[tag]) && s.packets[tag].first + piece <= s.sent
    ensures var c := s.packets[tag].Wire(tag, piece);
      var r := Receive(s.channel, c, room, maximumPacketSize);
      t == s.(channel := r.channel, out := s.out + r.out,
              acks := if Acknowledges(r, c) then s.acks + {s.packets[tag].first + piece} else s.acks)
  {
    hide Receive, Packet.Wire, Acknowledges, Packet.Ok, BitsOk, Fresh;
  }

  lemma OutcomeKeeps(s: State, r: nat, t: State, tag: nat, piece: nat, c: Command, a: Result, i: nat) returns (r': nat)
    requires InvAt(s, r) && Idle(a.channel) && tag < |s.packets|
    requires s.packets[tag].Reliable() ==> c.reliable == Num(i) && i == s.packets[tag].first + piece <= s.sent
    requires c.kind == s.packets[tag].kind && s.packets[tag].Ok()
    requires Outcome(s.packets, s.channel, r, s.sent, s.out, a, i)
    requires t == s.(channel := a.channel, out := s.out + a.out,
                     acks := if Acknowledges(a, c) then s.acks + {s.packets[tag].first + piece} else s.acks)
    ensures InvAt(t, r') && Carried(s, r, t, r') && TakenOrFar(s.packets, a, r', i)
  {
    hide ChannelInv, OutInv, History, Idle, Has, Num, Acknowledged, Win, LastReliable;
    r' :| Keeps(s.packets, s.channel, r, s.sent, s.out, a, r') && TakenOrFar(s.packets, a, r', i);
    UnreliableKind(s.packets[tag]);
    if Acknowledges(a, c) {
      SettledOf(s.packets, a.channel, r', s.sent);
      AcknowledgedIsSecured(s.packets, a, r', s.sent, i);
    }
    WinMonotone(r, r');
  }

  // ---- an acknowledgement arrives

  /** The sender finds the command that was acknowledged, not another with the same 16 bits. */
  lemma AckFindsItsCommand(s: State, r: nat, number: nat, found: nat)
    requires SenderInv(s, r) && number in s.acks && s.sent < number + SPACE && found in s.unacked && Num(found) == Num(number)
    ensures found == number
  {
    hide Secured;
    NumWin(found);
    NumWin(number);
  }

  lemma DeliverAckKeeps(s: State, r: nat, t: State, number: nat, found: nat)
    requires InvAt(s, r) && Next(s, DeliverAck(number, found), t)
    ensures InvAt(t, r)
  {
    hide ChannelInv, OutInv, Secured, History, Idle, Num;
    if t != s {
      AckFindsItsCommand(s, r, number, found);
    }
  }

  // ---- every run

  lemma NextKeeps(s: State, step: Step, t: State)
    requires Inv(s) && Next(s, step, t) && Timely(s, step)
    ensures Inv(t)
  {
    hide *;
    var r := Standing(s);
    match step {
      case Send(data, reliable, unreliableFragment, size) =>
        SendMeans(s, data, reliable, unreliableFragment, size, t);
        NewPacketFollows(s.packets, data, reliable, unreliableFragment, size);
        SendKeeps(s, r, NewPacket(s.packets, data, reliable, unreliableFragment, size));
      case FirstSend(limit) =>
        FirstSendMeans(s, limit, t);
        FirstSendKeeps(s, r);
      case Deliver(tag, piece, room, maximumPacketSize) =>
        r := DeliverKeeps(s, r, t, tag, piece, room, maximumPacketSize);
      case DeliverAck(number, found) =>
        DeliverAckKeeps(s, r, t, number, found);
    }
    StandsAt(t, r);
  }

  /** Where the receiver stands. */
  lemma Standing(s: State) returns (r: nat)
    requires Inv(s)
    ensures InvAt(s, r)
  {
    hide InvAt;
    r :| InvAt(s, r);
  }

  lemma StandsAt(s: State, r: nat)
    requires InvAt(s, r)
    ensures Inv(s)
  {
    hide InvAt;
  }

  lemma SendMeans(s: State, data: seq<byte>, reliable: bool, unreliableFragment: bool, size: nat, t: State)
    requires Next(s, Send(data, reliable, unreliableFragment, size), t)
    ensures 0 < size && t == s.(packets := s.packets + [NewPacket(s.packets, data, reliable, unreliableFragment, size)])
  {
    hide NewPacket, Packet.Count;
  }

  lemma FirstSendMeans(s: State, limit: nat, t: State)
    requires Next(s, FirstSend(limit), t)
    ensures s.sent < LastReliable(s.packets) && !WindowWraps(s.unacked, Num(s.sent + 1))
    ensures t == s.(sent := s.sent + 1, unacked := s.unacked + {s.sent + 1})
  {
    hide WindowWraps, InTransit, Lengths, LastReliable, Num;
  }

  lemma {:induction false} RunKeeps(states: seq<State>, steps: seq<Step>, k: nat)
    requires TimelyRun(states, steps) && k < |states|
    ensures Inv(states[k])
  {
    hide Inv, Next, Timely;
    if k == 0 {
      StartInv();
      InvStarts();
    } else {
      RunKeeps(states, steps, k - 1);
      NextKeeps(states[k - 1], steps[k - 1], states[k]);
    }
  }

  lemma InvStarts()
    requires InvAt(Start(), 0)
    ensures Inv(Start())
  {
  }

  // ---- the stream

  /** The data of the reliable packets the sender accepted, in its order; and of those dispatched. */
  function Accepted(packets: seq<Packet>): seq<seq<byte>> {
    if packets == [] then []
    else
      var p := packets[|packets| - 1];
      Accepted(packets[..|packets| - 1]) + if p.Reliable() then [p.data] else []
  }

  predicate IsReliable(e: Incoming) { e.kind == SendReliable || e.kind == SendFragment }

  function Delivered(out: seq<Incoming>): seq<seq<byte>> {
    if out == [] then []
    else
      var e := out[|out| - 1];
      Delivered(out[..|out| - 1]) + if IsReliable(e) then [e.packet] else []
  }

  function AllTags(packets: seq<Packet>, n: nat): (tags: seq<nat>)
    requires n <= |packets|
    ensures forall k :: 0 <= k < |tags| ==> tags[k] < n && packets[tags[k]].Reliable()
  {
    if n == 0 then [] else AllTags(packets, n - 1) + if packets[n - 1].Reliable() then [n - 1] else []
  }

  function DataOf(packets: seq<Packet>, tags: seq<nat>): seq<seq<byte>>
    requires forall k :: 0 <= k < |tags| ==> tags[k] < |packets|
  {
    seq(|tags|, k requires 0 <= k < |tags| => packets[tags[k]].data)
  }

  lemma {:induction false} AcceptedTags(packets: seq<Packet>, n: nat)
    requires n <= |packets|
    ensures Accepted(packets[..n]) == DataOf(packets, AllTags(packets, n))
  {
    if n > 0 {
      AcceptedTags(packets, n - 1);
      assert packets[..n][..n - 1] == packets[..n - 1];
    }
  }

  lemma {:induction false} DeliveredTags(packets: seq<Packet>, out: seq<Incoming>, r: nat, iu: nat)
    requires forall k :: 0 <= k < |out| ==> Dispatched(packets, out[k], r, iu)
    ensures forall k :: 0 <= k < |ReliableTags(packets, out)| ==> ReliableTags(packets, out)[k] < |packets|
    ensures Delivered(out) == DataOf(packets, ReliableTags(packets, out))
  {
    if out != [] {
      DeliveredTags(packets, out[..|out| - 1], r, iu);
    }
  }

  lemma {:induction false} TagsPrefix(packets: seq<Packet>, n: nat, r: nat)
    requires History(packets) && n <= |packets|
    ensures TagsUpTo(packets, n, r) <= AllTags(packets, n)
    ensures (forall t :: 0 <= t < n && packets[t].Reliable() ==> packets[t].last <= r) ==> TagsUpTo(packets, n, r) == AllTags(packets, n)
  {
    hide History, Packet.Ok;
    if n > 0 {
      TagsPrefix(packets, n - 1, r);
      if packets[n - 1].Reliable() && packets[n - 1].last <= r {
        forall t | 0 <= t < n - 1 ensures packets[t].last <= r {
          HistoryOrder(packets, t, n - 1);
        }
      }
    }
  }

  /** The reliable packets dispatched are the first ones that enet_peer_send accepted, in order, each once
      and with the same bytes. */
  lemma DeliversInOrder(s: State)
    requires Inv(s)
    ensures Delivered(s.out) <= Accepted(s.packets)
  {
    var r :| InvAt(s, r);
    InvMeans(s, r);
    hide InvAt;
    var tags, n := TagsUpTo(s.packets, |s.packets|, r), |s.packets|;
    TagsPrefix(s.packets, n, r);
    hide History;
    DeliveredTags(s.packets, s.out, r, s.channel.unreliable);
    AcceptedTags(s.packets, n);
    assert s.packets[..n] == s.packets;
    var all := AllTags(s.packets, n);
    assert forall j :: 0 <= j < |tags| ==> tags[j] == all[j];
  }

  /** Reliable and unreliable packets together: what is dispatched is a part of what the sender
      accepted, in the sender's order, none twice, with the same bytes; and when a packet is
      dispatched, all the reliable ones before it have been. */
  lemma StreamDelivery(states: seq<State>, steps: seq<Step>, k: nat)
    requires TimelyRun(states, steps) && k < |states|
    ensures var packets, out := states[k].packets, states[k].out;
      && (forall j :: 0 <= j < |out| ==> out[j].tag < |packets| && out[j].packet == packets[out[j].tag].data)
      && (forall i, j :: 0 <= i < j < |out| ==> out[i].tag < out[j].tag)
      && (forall j, t :: 0 <= j < |out| && 0 <= t < out[j].tag && packets[t].Reliable() ==> exists i :: 0 <= i < j && out[i].tag == t)
  {
    RunKeeps(states, steps, k);
    hide TimelyRun;
    var s := states[k];
    var packets, out := s.packets, s.out;
    var r :| InvAt(s, r);
    InvMeans(s, r);
    hide InvAt;
    forall j, t | 0 <= j < |out| && 0 <= t < out[j].tag && packets[t].Reliable() ensures exists i :: 0 <= i < j && out[i].tag == t {
      assert Dispatched(packets, out[j], r, s.channel.unreliable);
      ReliableBefore(packets, out, r, s.channel.unreliable, j, t);
    }
  }

  lemma {:induction false} TagsUpToHas(packets: seq<Packet>, n: nat, r: nat, t: nat)
    requires t < n <= |packets| && packets[t].Reliable() && packets[t].last <= r
    ensures t in TagsUpTo(packets, n, r)
  {
    if t < n - 1 {
      TagsUpToHas(packets, n - 1, r, t);
    }
  }

  lemma {:induction false} ReliableTagsHave(packets: seq<Packet>, out: seq<Incoming>, t: nat)
    requires t in ReliableTags(packets, out)
    ensures exists i :: 0 <= i < |out| && out[i].tag == t
  {
    var n := |out| - 1;
    if out[n].tag != t {
      ReliableTagsHave(packets, out[..n], t);
      var i :| 0 <= i < n && out[..n][i].tag == t;
      assert out[i].tag == t;
    }
  }

  lemma ReliableBefore(packets: seq<Packet>, out: seq<Incoming>, r: nat, iu: nat, j: nat, t: nat)
    requires History(packets) && OutInv(packets, out, r, iu) && j < |out| && t < out[j].tag < |packets| && packets[t].Reliable()
    requires Dispatched(packets, out[j], r, iu)
    ensures exists i :: 0 <= i < j && out[i].tag == t
  {
    HistoryOrder(packets, t, out[j].tag);
    hide History;
    TagsUpToHas(packets, |packets|, r, t);
    ReliableTagsHave(packets, out, t);
    var i :| 0 <= i < |out| && out[i].tag == t;
  }

  // ---- windows and acknowledgements

  /** Every reliable packet that ends at or below r was dispatched, and no other. */
  ghost predicate DispatchedUpTo(s: State, r: nat) {
    ReliableTags(s.packets, s.out) == TagsUpTo(s.packets, |s.packets|, r)
  }

  /** Whatever was sent lies at most seven windows ahead of the receiver, and whatever was acknowledged
      was dispatched or waits in the receiver's queue. */
  ghost predicate WithinWindows(s: State) {
    exists r: nat ::
      && s.channel.incoming == Num(r) && DispatchedUpTo(s, r) && r <= s.sent
      && Win(s.sent) <= Win(r) + FREE_WINDOWS - 1
      && forall i :: i in s.acks ==> Win(i) < Win(r) + FREE_WINDOWS - 1 && Has(s.packets, s.channel.reliables, r, i)
  }

  lemma KeepsWithinWindows(s: State)
    requires Inv(s)
    ensures WithinWindows(s)
  {
    var r :| InvAt(s, r);
    InvMeans(s, r);
    hide InvAt, Has, ReliableQueue, UnreliableSettled, Boundary, Num, History;
    assert DispatchedUpTo(s, r);
  }

  /** The entry that holds the number after r stands first in the queue and belongs to the packet that
      begins there. */
  lemma NextHeld(packets: seq<Packet>, q: seq<Incoming>, r: nat, sent: nat)
    requires History(packets) && ReliableQueue(packets, q, r, sent) && Boundary(packets, r) && Has(packets, q, r, r + 1)
    ensures q != [] && q[0].tag < |packets| && packets[q[0].tag].Reliable() && packets[q[0].tag].first == r + 1
  {
    hide EntryOk, History, Num, Win;
    var k :| 0 <= k < |q| && HoldsNumber(packets, q[k], r + 1);
    assert ReliableEntry(packets, q[k], r, sent) && ReliableEntry(packets, q[0], r, sent);
    if k > 0 {
      SameNumbers(packets, q[0].tag, q[k].tag);
    }
  }

  /** A number of that packet can only be held by its own entry. */
  lemma HeldByFirst(packets: seq<Packet>, q: seq<Incoming>, r: nat, sent: nat, i: nat)
    requires History(packets) && ReliableQueue(packets, q, r, sent) && q != [] && q[0].tag < |packets| && packets[q[0].tag].Reliable()
    requires r < i && packets[q[0].tag].first <= i <= packets[q[0].tag].last && Has(packets, q, r, i)
    ensures HoldsNumber(packets, q[0], i)
  {
    hide EntryOk, History, Num, Win;
    var k :| 0 <= k < |q| && HoldsNumber(packets, q[k], i);
    if k > 0 {
      HistoryOrder(packets, q[0].tag, q[k].tag);
      assert false;
    }
  }

  lemma AllHeldIsComplete(e: Incoming, p: Packet)
    requires EntryOk(e, p) && p.Fragmented() && forall f :: 0 <= f < |e.got| ==> e.got[f]
    ensures e.remaining == 0
  {
    MissingZero(e.got);
  }

  /** With all its numbers there, the first packet is complete and its turn has come. */
  lemma FirstIsReady(packets: seq<Packet>, q: seq<Incoming>, r: nat, sent: nat, m: nat)
    requires History(packets) && ReliableQueue(packets, q, r, sent) && Boundary(packets, r) && r < m
    requires forall i :: r < i <= m ==> Has(packets, q, r, i)
    requires forall t :: 0 <= t < |packets| && packets[t].Reliable() && packets[t].first == r + 1 ==> packets[t].last <= m
    ensures ReadyCount(q, Num(r)) > 0
  {
    hide Has, ReliableEntry, Boundary;
    NextHeld(packets, q, r, sent);
    var e, p := q[0], packets[q[0].tag];
    ReliableQueueTags(packets, q, r, sent, 0);
    ReadyTest(packets, e, r, sent);
    NumbersOrdered(packets, e.tag);
    hide ReliableQueue, History, LastReliable, Num;
    if p.Fragmented() {
      SomePieces(p);
      forall f: nat | f < |e.got| ensures e.got[f] {
        HeldByFirst(packets, q, r, sent, p.first + f);
      }
      AllHeldIsComplete(e, p);
    }
  }

  /** If the receiver has every number up to the sender's last one, nothing is left in its queue. */
  lemma NothingWaits(s: State, r: nat)
    requires InvAt(s, r) && s.sent == LastReliable(s.packets) && s.unacked == {}
    ensures r == s.sent
  {
    hide *;
    InvMeans(s, r);
    QueueOf(s.packets, s.channel, r, s.sent);
    AllHad(s, r);
    if r < s.sent {
      forall t | 0 <= t < |s.packets| ensures s.packets[t].last <= s.sent {
        LastIsLast(s.packets, t);
      }
      FirstIsReady(s.packets, s.channel.reliables, r, s.sent, s.sent);
      NotReady(s.channel);
    }
  }

  lemma AllHad(s: State, r: nat)
    requires SenderInv(s, r) && s.unacked == {}
    ensures forall i :: r < i <= s.sent ==> Has(s.packets, s.channel.reliables, r, i)
  {
    hide Has, Win;
    forall i | r < i <= s.sent ensures Has(s.packets, s.channel.reliables, r, i) {
      assert Secured(s.packets, s.channel.reliables, r, i);
    }
  }

  lemma NotReady(ch: Channel)
    requires Idle(ch)
    ensures ReadyCount(ch.reliables, ch.incoming) == 0
  {
  }

  lemma LastIsLast(packets: seq<Packet>, t: nat)
    requires History(packets) && t < |packets|
    ensures packets[t].last <= LastReliable(packets)
  {
    if t < |packets| - 1 {
      HistoryOrder(packets, t, |packets| - 1);
    }
  }

  /** When the last command the sender kept has been acknowledged, every reliable packet it ever
      accepted has been dispatched. */
  lemma DeliversAll(s: State)
    requires Inv(s) && s.sent == LastReliable(s.packets) && s.unacked == {}
    ensures Delivered(s.out) == Accepted(s.packets)
  {
    var r :| InvAt(s, r);
    NothingWaits(s, r);
    InvMeans(s, r);
    hide InvAt;
    var n := |s.packets|;
    forall t: nat | t < n ensures s.packets[t].last <= r {
      LastIsLast(s.packets, t);
    }
    TagsPrefix(s.packets, n, r);
    hide History;
    DeliveredTags(s.packets, s.out, r, s.channel.unreliable);
    AcceptedTags(s.packets, n);
    assert s.packets[..n] == s.packets;
  }
}
