/** How long the network may keep a datagram: the bounds that the theorems on delivery assume are the
    longest ones, and what the handlers do with a datagram that is kept longer. */
module DatagramLifetime {
  import opened Words
  import opened SequenceNumbers
  import opened IncomingChannel
  import opened DeliveryModel
  import opened DeliveryProof
  import opened DeliveryInvariant
  import opened DeliveryTheorems
  import opened ReliableRuns

  // ---- the bounds

  /** How the sender may stand when the receiver stands at r: at most seven windows ahead. */
  predicate Apart(sent: nat, r: nat) {
    r <= sent && Win(sent) <= Win(r) + FREE_WINDOWS - 1
  }

  /** No command behind the receiver, sent before the sender moved on by more than k windows, passes for a new one. */
  ghost predicate OldAreTold(k: nat) {
    forall x: nat, sent: nat, r: nat ::
      Apart(sent, r) && x < r && Win(sent) <= Win(x) + k ==> !InWindow(Num(x), Num(r)) && Num(x) != Num(r)
  }

  /** Of a number at most k windows ahead of the sender the receiver's tests say what they should. */
  ghost predicate EarlyAreTold(k: nat) {
    forall x: nat, sent: nat, r: nat ::
      Apart(sent, r) && r <= x && Win(x) <= Win(sent) + k ==>
        && (InWindow(Num(x), Num(r)) <==> Win(x) < Win(r) + FREE_WINDOWS - 1)
        && (Num(x) == Num(r) <==> x == r)
  }

  /** An acknowledgement older than the last k commands aside, the only command in use with the
      acknowledged 16 bits is the one acknowledged. */
  ghost predicate AcksAreTold(k: nat) {
    forall number: nat, sent: nat, found: nat :: sent < number + k && MayMatch(number, sent, found) ==> found == number
  }

  /** found is in use, number was sent, and their 16 bits are the same. */
  predicate MayMatch(number: nat, sent: nat, found: nat) {
    number <= sent && found <= sent && Win(sent) < Win(found) + FREE_WINDOWS - 1 && Num(found) == Num(number)
  }

  lemma OldestIsExact(k: nat)
    ensures OldAreTold(k) <==> k <= OLDEST
  {
    if k <= OLDEST {
      forall x: nat, sent: nat, r: nat | Apart(sent, r) && x < r && Win(sent) <= Win(x) + k
        ensures !InWindow(Num(x), Num(r)) && Num(x) != Num(r)
      {
        WinMonotone(r, sent);
        BehindOf(x, r);
      }
    } else {
      var x, r := 1, 1 + (OLDEST + 1) * WINDOW_SIZE;
      BehindTest(x, r);
      assert Apart(r, r) && InWindow(Num(x), Num(r));
    }
  }

  lemma FarthestIsExact(k: nat)
    ensures EarlyAreTold(k) <==> k <= FARTHEST
  {
    if k <= FARTHEST {
      forall x: nat, sent: nat, r: nat | Apart(sent, r) && r <= x && Win(x) <= Win(sent) + k
        ensures InWindow(Num(x), Num(r)) <==> Win(x) < Win(r) + FREE_WINDOWS - 1
        ensures Num(x) == Num(r) <==> x == r
      {
        AheadOf(x, r);
      }
    } else {
      var x, sent, r := SPACE, (FREE_WINDOWS - 1) * WINDOW_SIZE, 0;
      assert Apart(sent, r) && Win(x) <= Win(sent) + k && Num(x) == Num(r);
    }
  }

  lemma AckLifetimeIsExact(k: nat)
    ensures AcksAreTold(k) <==> k <= SPACE
  {
    if k <= SPACE {
      forall number: nat, sent: nat, found: nat | sent < number + k && MayMatch(number, sent, found) ensures found == number
      {
        NumWin(found);
        NumWin(number);
      }
    } else {
      assert MayMatch(0, SPACE, SPACE);
    }
  }

  /** What was not dispatched yet is never too old: the bound keeps out only repetitions of packets
      that the receiver has had. */
  lemma UndispatchedIsFresh(states: seq<State>, steps: seq<Step>, k: nat, tag: nat)
    requires Run(states, steps) && k < |states| && tag < |states[k].packets| && states[k].packets[tag].Reliable()
    requires forall j :: 0 <= j < |states[k].out| ==> states[k].out[j].tag != tag
    ensures Fresh(states[k], states[k].packets[tag])
  {
    HalvesKeep(states, steps, k);
    hide Run, Inv;
    var s := Half(states[k]);
    var r := Known(s);
    hide ChannelInv, OutInv, History;
    OnlySome(states[k].out);
    NotDispatched(s.packets, s.out, r, s.channel.unreliable, tag);
    BoundaryMeans(s.packets, s.channel, r, s.sent, tag);
    WinMonotone(r, s.packets[tag].first);
  }

  lemma Known(s: State) returns (r: nat)
    requires Inv(s)
    ensures ChannelInv(s.packets, s.channel, r, s.sent) && OutInv(s.packets, s.out, r, s.channel.unreliable) && History(s.packets)
  {
    r :| InvAt(s, r);
    InvMeans(s, r);
  }

  lemma {:induction false} OnlySome(out: seq<Incoming>)
    ensures forall j :: 0 <= j < |OnlyReliable(out)| ==> OnlyReliable(out)[j] in out
  {
    if out != [] {
      OnlySome(out[..|out| - 1]);
    }
  }

  lemma NotDispatched(packets: seq<Packet>, out: seq<Incoming>, r: nat, iu: nat, tag: nat)
    requires OutInv(packets, out, r, iu) && tag < |packets| && packets[tag].Reliable()
    requires forall j :: 0 <= j < |out| ==> out[j].tag != tag
    ensures r < packets[tag].last
  {
    hide Dispatched;
    if packets[tag].last <= r {
      TagsUpToHas(packets, |packets|, r, tag);
      ReliableTagsHave(packets, out, tag);
    }
  }

  lemma BoundaryMeans(packets: seq<Packet>, c: Channel, r: nat, sent: nat, tag: nat)
    requires ChannelInv(packets, c, r, sent) && tag < |packets| && packets[tag].Reliable() && r < packets[tag].last
    ensures r < packets[tag].first && Win(sent) < Win(r) + FREE_WINDOWS
  {
    hide ReliableQueue, UnreliableSettled;
  }

  // ---- what becomes of a datagram that was kept longer

  /** The handler takes an old fragment for the first one of a new packet just when the window test
      mistakes its start number, and otherwise discards it. */
  lemma OldFragment(ch: Channel, c: Command, i: nat, r: nat, maximumPacketSize: nat)
    requires ch.incoming == Num(r) && ch.reliables == [] && i < r && Num(i) != Num(r)
    requires c.kind == SendFragment && c.start == Num(i) && 1 < c.count && FragmentFits(c, maximumPacketSize)
    ensures var d := (Win(r) - Win(i)) % WINDOWS;
      ReceiveFragment(ch, c, true, maximumPacketSize) ==
        if FREE_WINDOWS + 2 <= d || (d == 0 && Num(i) > Num(r))
        then Result(true, ch.(reliables := [AddFragment(NewIncoming(c, Num(i), 0), c)]), [])
        else Result(true, ch, [])
  {
    BehindTest(i, r);
    hide InWindow, Num, Win;
    if InWindow(Num(i), Num(r)) {
      FirstOfMany(ch, c);
    }
  }

  /** The first fragment of several waits alone in the queue. */
  lemma FirstOfMany(ch: Channel, c: Command)
    requires ch.reliables == [] && c.kind == SendFragment && 1 < c.count && c.fragment < c.count && c.offset + |c.data| <= c.total
    ensures QueueFragment(ch, 0, c) == Result(true, ch.(reliables := [AddFragment(NewIncoming(c, c.start, 0), c)]), [])
  {
    hide AddFragment;
    var e := NewIncoming(c, c.start, 0);
    assert Insert([], 0, e) == [e];
    assert ReadyCount([e], ch.incoming) == 0;
    var next := ch.(reliables := [e]);
    assert DispatchReliable(next) == (next, []);
    assert AddFragment(e, c).remaining > 0 by {
      StillMissing(e, c);
    }
    assert [e][0 := AddFragment(e, c)] == [AddFragment(e, c)];
  }

  lemma StillMissing(e: Incoming, c: Command)
    requires c.fragment < |e.got| && c.offset + |c.data| <= |e.packet| && e.remaining > 1
    ensures AddFragment(e, c).remaining > 0
  {
  }

  /** Counted from a fragment's own number, even half the number space is too long: the first of 0x7000
      fragments of a packet dispatched long ago, repeated when 0x7FFF more commands were received, is
      queued again, and acknowledged ... */
  lemma StaleFragmentIsTakenForNew(ch: Channel, c: Command, maximumPacketSize: nat)
    requires ch.incoming == Num(0x7000 + 0x7FFF) && ch.reliables == []
    requires c.kind == SendFragment && c.start == Num(1) && c.reliable == Num(0x7000) && c.count == 0x7000
    requires FragmentFits(c, maximumPacketSize)
    ensures var t := ReceiveFragment(ch, c, true, maximumPacketSize);
      && t == Result(true, ch.(reliables := [AddFragment(NewIncoming(c, Num(1), 0), c)]), [])
      && Acknowledges(t, c)
  {
    OldFragment(ch, c, 1, 0x7000 + 0x7FFF, maximumPacketSize);
  }

  /** ... and when the numbers come round, it stands where a new packet should: that one is discarded as a
      repetition, and acknowledged, so that the sender never sends it again. */
  lemma NewPacketIsLost(ch: Channel, stale: Incoming, c: Command, room: bool)
    requires ch.incoming == Num(SPACE) && ch.reliables == [stale] && stale.reliable == Num(1)
    requires c.kind == SendReliable && c.reliable == Num(SPACE + 1)
    ensures var t := ReceiveReliable(ch, c, room);
      t == Result(true, ch, []) && Acknowledges(t, c)
  {
    assert SearchReliable(ch.reliables, c.reliable, ch.incoming, 1) == At(0);
  }

  /** An unreliable packet whose reliable number lies a whole turn ahead is dispatched at once, before the
      reliable packets that were sent before it. */
  lemma FarAheadIsTakenForCurrent(ch: Channel, c: Command, r: nat)
    requires ch.incoming == Num(r) && ch.unreliables == []
    requires c.kind == SendUnreliable && c.reliable == Num(r + SPACE) && ch.unreliable < c.start
    ensures ReceiveUnreliable(ch, c, true) == Result(true, ch.(unreliable := c.start), [NewIncoming(c, c.reliable, c.start)])
  {
    assert Num(r + SPACE) == Num(r) && InWindow(Num(r), Num(r));
    hide InWindow, Num;
    var e := NewIncoming(c, c.reliable, c.start);
    assert Insert([], 0, e) == [e];
    var next := ch.(unreliables := [e]);
    var s := Scan(0, 0, 0, ch.unreliable, [], []);
    assert ScanTurn([e], ch.incoming, s) == Scan(1, 0, 0, c.start, [], []);
    assert ScanAll([e], ch.incoming, s) == Scan(1, 0, 0, c.start, [], []);
    assert [] + [e][0..1] == [e];
    assert WholeWalk(next) == Scan(1, 0, 1, c.start, [e], []);
    assert Kept([e], [], 1, 0) + [e][1..] == [];
    assert DispatchUnreliable(next, 0) == (next.(unreliable := c.start, unreliables := []), [e]);
    assert next.(unreliable := c.start, unreliables := []) == ch.(unreliable := c.start);
  }

  /** It happens without any delay: the sender accepts a packet of a whole turn of fragments and then an
      unreliable one. That one does not wait for windows, and overtakes the packet in front of it. */
  lemma UnreliableOvertakes(a: seq<byte>, b: seq<byte>) returns (states: seq<State>, steps: seq<Step>)
    requires |a| == SPACE && |b| == 1
    ensures Run(states, steps) && |states| == 4
    ensures |states[3].packets| == 2 && states[3].packets[0].Reliable() && states[3].packets[0].data == a && states[3].packets[1].data == b
    ensures |states[3].out| == 1 && states[3].out[0].tag == 1 && states[3].out[0].packet == b
  {
    var p, q := NewPacket([], a, true, false, 1), NewPacket([NewPacket([], a, true, false, 1)], b, false, false, 1);
    OneTurn(a, b, p, q);
    hide *;
    var s1, s2 := Start().(packets := [p]), Start().(packets := [p, q]);
    var s3, e := Overtaking(s2, q);
    states := [Start(), s1, s2, s3];
    steps := [Send(a, true, false, 1), Send(b, false, false, 1), Deliver(1, 0, true, 1)];
    FourStates(states, steps);
  }

  lemma OneTurn(a: seq<byte>, b: seq<byte>, p: Packet, q: Packet)
    requires |a| == SPACE && |b| == 1 && p == NewPacket([], a, true, false, 1) && q == NewPacket([p], b, false, false, 1)
    ensures Next(Start(), Send(a, true, false, 1), Start().(packets := [p]))
    ensures Next(Start().(packets := [p]), Send(b, false, false, 1), Start().(packets := [p, q]))
    ensures Start().packets == [] && Start().out == [] && p.Reliable() && p.data == a
    ensures q == Packet(SendUnreliable, SPACE, SPACE, 1, b, 1)
  {
    assert p == Packet(SendFragment, 1, SPACE, 0, a, 1);
  }

  lemma Overtaking(s: State, q: Packet) returns (t: State, e: Incoming)
    requires |s.packets| == 2 && s == Start().(packets := s.packets) && s.packets[1] == q
    requires q == Packet(SendUnreliable, SPACE, SPACE, 1, q.data, 1) && |q.data| == 1
    ensures Next(s, Deliver(1, 0, true, 1), t) && t == s.(channel := t.channel, out := [e]) && e.tag == 1 && e.packet == q.data
  {
    var c := q.Wire(1, 0);
    FarAheadIsTakenForCurrent(NEW_CHANNEL, c, 0);
    hide ReceiveUnreliable, InWindow;
    e := NewIncoming(c, c.reliable, c.start);
    t := s.(channel := ReceiveUnreliable(NEW_CHANNEL, c, true).channel, out := [e]);
    assert [] + [e] == [e];
  }

  lemma FourStates(states: seq<State>, steps: seq<Step>)
    requires |states| == 4 && |steps| == 3 && states[0] == Start()
    requires Next(states[0], steps[0], states[1]) && Next(states[1], steps[1], states[2]) && Next(states[2], steps[2], states[3])
    ensures Run(states, steps)
  {
    hide Next, Start;
  }
}
