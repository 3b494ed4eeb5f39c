/** What the sender sends again. The receiver tells a fragment of an old packet by the packet's first
    number, so that a packet with numbers in many windows may be taken for a new one while the sender
    still repeats its last fragments, without any delay in the network. */
module Retransmissions {
  import opened Words
  import opened SequenceNumbers
  import opened IncomingChannel
  import opened DeliveryModel
  import opened DeliveryProof
  import opened DeliveryInvariant
  import opened DeliveryTheorems
  import opened ReliableRuns
  import opened DatagramLifetime
  import opened LargePackets
  import opened Progress

  /** The first number of a packet is told from a new one as long as the sender keeps a command of the packet
      that lies at most k windows behind. */
  ghost predicate RepetitionsAreTold(k: nat) {
    forall first: nat, i: nat, sent: nat, r: nat ::
      Apart(sent, r) && first < r && first <= i <= sent && Win(i) <= Win(first) + k && Win(sent) < Win(i) + FREE_WINDOWS - 1 ==>
        !InWindow(Num(first), Num(r))
  }

  /** Four windows are the most that a packet may have numbers in. */
  lemma SpanIsExact(k: nat)
    ensures RepetitionsAreTold(k) <==> k <= 3
  {
    if k <= 3 {
      forall first: nat, i: nat, sent: nat, r: nat |
        Apart(sent, r) && first < r && first <= i <= sent && Win(i) <= Win(first) + k && Win(sent) < Win(i) + FREE_WINDOWS - 1
        ensures !InWindow(Num(first), Num(r))
      {
        WinMonotone(r, sent);
        BehindOf(first, r);
      }
    } else {
      var first, i, r := 1, 4 * WINDOW_SIZE, 10 * WINDOW_SIZE;
      BehindTest(first, r);
      assert Apart(r, r) && Win(i) <= Win(first) + k && Win(r) < Win(i) + FREE_WINDOWS - 1 && InWindow(Num(first), Num(r));
    }
  }

  // ---- a run in which it happens

  /** The sender has heard of everything but the acknowledgement of h, which was lost. */
  ghost predicate Keeping(s: State, r: nat, h: nat) {
    InvAt(s, r) && HasUpTo(s, r, s.sent) && s.unacked == {h} && h in s.acks && h <= r
  }

  lemma HeldFar(h: nat, n: nat)
    requires Win(h) < Win(n) < Win(h) + FREE_WINDOWS - 1
    ensures (Num(h) / WINDOW_SIZE + WINDOWS - Num(n) / WINDOW_SIZE) % WINDOWS >= FREE_WINDOWS + 2
  {
    NumWin(h);
    NumWin(n);
    hide Win, Num;
    var a, b := Win(h), Win(n);
    assert b % WINDOWS == if a % WINDOWS + (b - a) < WINDOWS then a % WINDOWS + (b - a) else a % WINDOWS + (b - a) - WINDOWS;
  }

  lemma HeldAlone(h: nat, v: nat)
    ensures InFlight({h}, v) == if Num(h) / WINDOW_SIZE == v then {h} else {}
  {
  }

  lemma OneHeld(h: nat, n: nat)
    requires h < n && Win(n) < Win(h) + FREE_WINDOWS - 1
    ensures !WindowWraps({h}, Num(n))
  {
    if n % WINDOW_SIZE == 0 {
      WindowStarts(n);
      WinMonotone(h, n - 1);
      HeldFar(h, n);
      hide Num, InFlight;
      forall v: nat {
        HeldAlone(h, v);
      }
    } else {
      InsideWindow({h}, n);
    }
  }

  /** All commands are single bytes. */
  ghost predicate Bytewise(packets: seq<Packet>) {
    forall i :: 0 <= i < |Lengths(packets)| ==> Lengths(packets)[i] <= 1
  }

  lemma KeepsOn(s: State, r: nat, h: nat) returns (t: State, r': nat, n: nat)
    requires Keeping(s, r, h) && Accepts(s.packets) && Bytewise(s.packets) && s.sent < LastReliable(s.packets)
    requires Win(s.sent + 1) < Win(h) + FREE_WINDOWS - 1
    ensures Goes(s, t, n, MAXIMUM_WINDOW_SIZE) && Keeping(t, r', h) && t.packets == s.packets && t.sent == s.sent + 1
  {
    hide *;
    var most, i := MAXIMUM_WINDOW_SIZE, s.sent + 1;
    KeepingMeans(s, r, h);
    InvMeans(s, r);
    var tag := NextBegins(s, r, s.sent);
    OneHeld(h, i);
    TwoBytes(s.packets, h, i);
    var u := s.(sent := i, unacked := s.unacked + {i});
    MayFirstSend(s, u, most);
    FirstSendKeeps(s, r);
    GoesNowhere(s, most);
    GoesOn(s, s, 0, most, FirstSend(most), u);
    NumberHasPiece(s.packets[tag], i);
    FewFragments(s.packets, tag);
    var v;
    v, r' := TakesNext(u, r, tag, i - s.packets[tag].first, most);
    GoesFurther(s, u, 1, most, v);
    HasBefore(s, u, r);
    HasMore(u, r, v, r', i);
    StillNear(u, r, v, r', h, i);
    StillFresh(s, r, tag, h, v);
    var k;
    t, k := OneAcknowledged(v, r', i, most);
    GoesAll(s, v, 2, t, k, most);
    n := 2 + k;
    HasStill(v, t, r');
    KeepingStill(v, t, r', h, i);
  }

  lemma KeepingMeans(s: State, r: nat, h: nat)
    requires Keeping(s, r, h)
    ensures InvAt(s, r) && HasUpTo(s, r, s.sent) && s.unacked == {h} && h in s.acks && h <= r <= s.sent <= LastReliable(s.packets) && 1 <= h
  {
    InvMeans(s, r);
    SettledOf(s.packets, s.channel, r, s.sent);
    KeptMeans(s, r, h);
  }

  lemma TwoBytes(packets: seq<Packet>, h: nat, i: nat)
    requires Bytewise(packets)
    ensures InTransit(Lengths(packets), 0, {h} + {i}) <= MAXIMUM_WINDOW_SIZE
  {
    hide InTransit, Lengths;
    InTransitBoth(Lengths(packets), 0, {h}, {i});
    InTransitOne(Lengths(packets), 0, h);
    InTransitOne(Lengths(packets), 0, i);
  }

  lemma StillNear(u: State, r: nat, v: State, r': nat, h: nat, i: nat)
    requires Carried(u, r, v, r') && h <= r && Win(i) < Win(h) + FREE_WINDOWS - 1
    ensures h <= r' && Win(i) < Win(r') + FREE_WINDOWS - 1
  {
    hide Has;
    WinMonotone(h, r');
  }

  lemma StillFresh(s: State, r: nat, tag: nat, h: nat, v: State)
    requires History(s.packets) && tag < |s.packets| && s.packets[tag].Reliable()
    requires s.packets[tag].first == r + 1 <= s.sent + 1 <= s.packets[tag].last && h <= r && Win(s.sent + 1) < Win(h) + FREE_WINDOWS - 1
    requires v.packets == s.packets && v.sent == s.sent + 1 && v.unacked == {h} + {s.sent + 1} && h in v.acks
    ensures Retrievable(v)
  {
    hide History, Win, Packet.Reliable;
    WinMonotone(h, r + 1);
    forall i, t | i in v.unacked && i !in v.acks && 0 <= t < |v.packets| && v.packets[t].Reliable()
      && v.packets[t].first <= i <= v.packets[t].last
      ensures Fresh(v, v.packets[t])
    {
      OnlyPacket(s.packets, tag, t, i);
    }
  }

  lemma KeepingStill(v: State, t: State, r': nat, h: nat, i: nat)
    requires InvAt(t, r') && HasUpTo(t, r', t.sent) && h <= r' && v.unacked == {h} + {i} && h != i && h in v.acks
    requires t == v.(unacked := v.unacked - {i}, acks := v.acks + {i})
    ensures Keeping(t, r', h)
  {
    hide InvAt, HasUpTo;
    assert {h} + {i} - {i} == {h};
  }

  lemma {:induction false} KeepsOnTo(s: State, r: nat, h: nat, m: nat) returns (t: State, r': nat, n: nat)
    requires Keeping(s, r, h) && Accepts(s.packets) && Bytewise(s.packets) && s.sent <= m <= LastReliable(s.packets)
    requires Win(m) < Win(h) + FREE_WINDOWS - 1
    ensures Goes(s, t, n, MAXIMUM_WINDOW_SIZE) && Keeping(t, r', h) && t.packets == s.packets && t.sent == m
    decreases m - s.sent
  {
    hide *;
    if s.sent == m {
      t, r', n := s, r, 0;
      GoesNowhere(s, MAXIMUM_WINDOW_SIZE);
    } else {
      WinMonotone(s.sent + 1, m);
      var u, r1, k := KeepsOn(s, r, h);
      var j;
      t, r', j := KeepsOnTo(u, r1, h, m);
      GoesAll(s, u, k, t, j, MAXIMUM_WINDOW_SIZE);
      n := k + j;
    }
  }

  /** From a quiet state at the end of a packet: its last command is sent, arrives, and is acknowledged in vain. */
  lemma LosesAcknowledgement(s: State, r: nat, tag: nat) returns (t: State, r': nat, n: nat)
    requires Quiet(s, r) && Accepts(s.packets) && tag < |s.packets| && s.packets[tag].Reliable()
    requires s.packets[tag].first == r + 1 && s.sent + 1 == s.packets[tag].last && !TooLong(s.packets[tag], MAXIMUM_WINDOW_SIZE)
    requires Win(s.sent + 1) < Win(r) + FREE_WINDOWS - 1
    ensures Goes(s, t, n, MAXIMUM_WINDOW_SIZE) && Keeping(t, r', s.sent + 1) && t.packets == s.packets && t.sent == s.sent + 1
  {
    hide *;
    var p, most, i := s.packets[tag], MAXIMUM_WINDOW_SIZE, s.sent + 1;
    QuietMeans(s, r);
    InvMeans(s, r);
    NumbersOrdered(s.packets, tag);
    NotTooLong(p, r, most);
    WindowAllows(s, r, p);
    DataAllows(s, r, tag, most);
    LastIsLast(s.packets, tag);
    var u := s.(sent := i, unacked := s.unacked + {i});
    MayFirstSend(s, u, most);
    FirstSendKeeps(s, r);
    GoesNowhere(s, most);
    GoesOn(s, s, 0, most, FirstSend(most), u);
    NumberHasPiece(p, i);
    FewFragments(s.packets, tag);
    var v;
    v, r' := TakesNext(u, r, tag, i - p.first, most);
    GoesFurther(s, u, 1, most, v);
    HasBefore(s, u, r);
    HasMore(u, r, v, r', i);
    AllOfOne(s, r, tag, u);
    StillRetrievable(u, v);
    NothingKept(s, r, i);
    DoneWith(v, r', i, tag);
    SameWindowNear(i);
    InvMeans(v, r');
    EntriesHaveBits(v.packets, v.channel, r', v.sent);
    LastFresh(v, r, p);
    SentHas(v, r', i);
    AcknowledgedAgain(v, r', tag, i - p.first);
    MayDeliver(v, tag, i - p.first, most);
    t := v.(acks := v.acks + {i});
    var step := Deliver(tag, i - p.first, true, |p.data|);
    GoesOn(s, v, 2, most, step, t);
    n := 3;
    StepInv(v, r', t, step, i);
    HasStill(v, t, r');
    KeepingNow(t, r', i);
  }

  lemma NothingKept(s: State, r: nat, i: nat)
    requires Quiet(s, r) && i == s.sent + 1 && Win(i) < Win(r) + FREE_WINDOWS - 1
    ensures s.unacked + {i} == {i}
  {
    hide InvAt, HasUpTo;
    forall j | j in s.unacked ensures false {
      KeptMeans(s, r, j);
      WinMonotone(j, i);
    }
  }

  /** The packet is complete, and the receiver's number that of its last command. */
  lemma DoneWith(v: State, r': nat, i: nat, tag: nat)
    requires InvAt(v, r') && HasUpTo(v, r', i) && i == v.sent && tag < |v.packets| && v.packets[tag].Reliable() && v.packets[tag].last == i
    ensures r' == i
  {
    hide *;
    InvMeans(v, r');
    QueueOf(v.packets, v.channel, r', v.sent);
    LastIsLast(v.packets, tag);
    SentIsGiven(v, r');
    if r' < i {
      if i < LastReliable(v.packets) {
        var b := NextBegins(v, r', i);
        OrderedSo(v.packets, tag, b);
      } else {
        WholeArrived(v, r');
      }
    }
  }

  lemma SameWindowNear(i: nat)
    ensures Win(i) < Win(i) + FREE_WINDOWS - 1
  {
  }

  lemma LastFresh(v: State, r: nat, p: Packet)
    requires p.first == r + 1 && Win(v.sent) < Win(r) + FREE_WINDOWS - 1
    ensures Fresh(v, p)
  {
    WinMonotone(r, r + 1);
  }

  lemma KeepingNow(t: State, r: nat, h: nat)
    requires InvAt(t, r) && HasUpTo(t, r, t.sent) && t.unacked == {h} && h in t.acks && h <= r
    ensures Keeping(t, r, h)
  {
  }

  // the last number of the first packet, and of both
  const HELD: nat := 4 * WINDOW_SIZE
  const END: nat := 10 * WINDOW_SIZE

  /** Two packets of single bytes are accepted. */
  function Two(a: seq<byte>, b: seq<byte>): seq<Packet> {
    var p := NewPacket([], a, true, false, 1);
    [p, NewPacket([p], b, true, false, 1)]
  }

  lemma TwoAre(a: seq<byte>, b: seq<byte>)
    requires |a| == HELD && |b| == END - HELD
    ensures var q := Two(a, b);
      && q[0] == Packet(SendFragment, 1, HELD, 0, a, 1) && q[1] == Packet(SendFragment, HELD + 1, END, 0, b, 1)
      && q[0].Count() == |a| && q[1].Count() == |b| && q[0].Ok() && q[1].Ok()
      && Accepts(q) && LastReliable(q) == END
      && !TooLong(q[0], MAXIMUM_WINDOW_SIZE)
  {
    var q := Two(a, b);
    assert q[0].Count() == |a| && q[1].Count() == |b|;
    ByFragments(q[0], MAXIMUM_WINDOW_SIZE);
  }

  lemma TwoBytewise(a: seq<byte>, b: seq<byte>)
    requires |a| == HELD && |b| == END - HELD
    ensures Bytewise(Two(a, b))
  {
    TwoAre(a, b);
    var q := Two(a, b);
    assert q[..2][..1] == [q[0]] && q[..1] == [q[0]] && [q[0]][..0] == [];
    assert Lengths([q[0]]) == Lengths([]) + PieceLengths(q[0]);
    assert Lengths(q) == Lengths([q[0]]) + PieceLengths(q[1]);
  }

  /** enet_peer_send accepts a packet. */
  lemma AcceptsOne(s0: State, s: State, n: nat, r: nat, data: seq<byte>, most: nat) returns (t: State)
    requires Goes(s0, s, n, most) && InvAt(s, r) && NewPacket(s.packets, data, true, false, 1).Count() <= MAXIMUM_FRAGMENT_COUNT
    ensures t == s.(packets := s.packets + [NewPacket(s.packets, data, true, false, 1)]) && Goes(s0, t, n + 1, most) && InvAt(t, r)
  {
    hide *;
    var p := NewPacket(s.packets, data, true, false, 1);
    t := s.(packets := s.packets + [p]);
    MayAccept(s, data, t, most);
    GoesOn(s0, s, n, most, Send(data, true, false, 1), t);
    NewPacketFollows(s.packets, data, true, false, 1);
    SendKeeps(s, r, p);
  }

  lemma MayAccept(s: State, data: seq<byte>, t: State, most: nat)
    requires NewPacket(s.packets, data, true, false, 1).Count() <= MAXIMUM_FRAGMENT_COUNT
    requires t == s.(packets := s.packets + [NewPacket(s.packets, data, true, false, 1)])
    ensures var step := Send(data, true, false, 1); Next(s, step, t) && Within(step, most) && !BringsUnreliable(s, step)
  {
    hide NewPacket, Packet.Count;
  }

  lemma TwoAccepted(a: seq<byte>, b: seq<byte>) returns (s: State)
    requires |a| == HELD && |b| == END - HELD
    ensures s == Start().(packets := Two(a, b)) && Goes(Start(), s, 2, MAXIMUM_WINDOW_SIZE) && Quiet(s, 0)
  {
    hide InvAt, Goes, Packet.Ok, Packet.Count, TooLong, NewPacket, Accepts;
    TwoAre(a, b);
    var q := Two(a, b);
    GoesNowhere(Start(), MAXIMUM_WINDOW_SIZE);
    StartInv();
    var u := AcceptsOne(Start(), Start(), 0, 0, a, MAXIMUM_WINDOW_SIZE);
    assert u.packets == [q[0]];
    s := AcceptsOne(Start(), u, 1, 0, b, MAXIMUM_WINDOW_SIZE);
    assert s.packets == q;
  }

  lemma {:induction false} GoesLeads(s: State, t: State, n: nat, most: nat)
    requires Goes(s, t, n, most)
    ensures Leads(s, t, n, most)
    decreases n
  {
    hide Next, Within, BringsUnreliable;
    if n > 0 {
      var m: State, step: Step :| Goes(s, m, n - 1, most) && Next(m, step, t) && Within(step, most) && !BringsUnreliable(m, step);
      GoesLeads(s, m, n - 1, most);
    }
  }

  /** A sender whose acknowledgement for the last fragment of a packet was lost: it goes on to the tenth window,
      and the receiver with it. */
  lemma GoesOnWithout(a: seq<byte>, b: seq<byte>) returns (s: State, n: nat)
    requires |a| == HELD && |b| == END - HELD
    ensures Leads(Start(), s, n, MAXIMUM_WINDOW_SIZE) && s.packets == Two(a, b) && s.unacked == {HELD}
    ensures s.channel.incoming == Num(END) && s.channel.reliables == []
  {
    hide *;
    var most := MAXIMUM_WINDOW_SIZE;
    TwoAre(a, b);
    TwoBytewise(a, b);
    s := TwoAccepted(a, b);
    n := 2;
    BeforeLast(s, a, b);
    var r, k, r', t;
    t, r, k := SendUpTo(s, 0, HELD - 1, most);
    GoesAll(Start(), s, n, t, k, most);
    s, n := t, n + k;
    AtStart(s, r);
    t, r', k := LosesAcknowledgement(s, r, 0);
    GoesAll(Start(), s, n, t, k, most);
    s, n := t, n + k;
    InReach();
    var r0 := r';
    t, r', k := KeepsOnTo(s, r0, HELD, END);
    GoesAll(Start(), s, n, t, k, most);
    s, n := t, n + k;
    GoesLeads(Start(), s, n, most);
    AtEnd(s, r');
  }

  lemma BeforeLast(s: State, a: seq<byte>, b: seq<byte>)
    requires |a| == HELD && |b| == END - HELD && s.packets == Two(a, b)
    requires s == Start().(packets := Two(a, b))
    ensures s.sent <= HELD - 1 <= LastReliable(s.packets)
    ensures forall tag :: 0 <= tag < |s.packets| && s.packets[tag].Reliable() && s.sent < s.packets[tag].last && s.packets[tag].first <= HELD - 1 ==>
      !TooLong(s.packets[tag], MAXIMUM_WINDOW_SIZE)
  {
    TwoAre(a, b);
  }

  lemma AtStart(s: State, r: nat)
    requires Quiet(s, r) && s.sent == HELD - 1
    requires exists a, b :: |a| == HELD && |b| == END - HELD && s.packets == Two(a, b)
    ensures |s.packets| == 2 && r == 0 && s.packets[0].Reliable() && s.packets[0].first == r + 1 && s.sent + 1 == s.packets[0].last
    ensures !TooLong(s.packets[0], MAXIMUM_WINDOW_SIZE) && Accepts(s.packets) && Win(s.sent + 1) < Win(r) + FREE_WINDOWS - 1
  {
    var a, b :| |a| == HELD && |b| == END - HELD && s.packets == Two(a, b);
    TwoAre(a, b);
    hide Two, NewPacket, Packet.Count, Packet.Ok, TooLong, HasUpTo, Accepts;
    QuietMeans(s, r);
    InvMeans(s, r);
    hide InvAt, Quiet;
    QueueOf(s.packets, s.channel, r, s.sent);
  }

  lemma InReach()
    ensures Win(END) < Win(HELD) + FREE_WINDOWS - 1
  {
  }

  lemma AtEnd(s: State, r: nat)
    requires Keeping(s, r, HELD) && s.sent == END == LastReliable(s.packets)
    ensures s.unacked == {HELD} && s.channel.incoming == Num(END) && s.channel.reliables == []
  {
    KeepingMeans(s, r, HELD);
    WholeArrived(s, r);
    InvMeans(s, r);
    QueueOf(s.packets, s.channel, r, s.sent);
    hide Keeping, InvAt, HasUpTo, EntryOk;
    if s.channel.reliables != [] {
      ReliableQueueTags(s.packets, s.channel.reliables, r, s.sent, 0);
    }
  }

  /** In that state the sender repeats the fragment, and the receiver, which has dispatched its packet long
      ago, queues it as the first fragment of a new packet, and acknowledges it. */
  lemma RetransmissionIsTakenForNew(a: seq<byte>, b: seq<byte>) returns (s: State, n: nat, c: Command)
    requires |a| == HELD && |b| == END - HELD
    ensures Leads(Start(), s, n, MAXIMUM_WINDOW_SIZE) && HELD in s.unacked && s.channel.reliables == []
    ensures |s.packets| == 2 && s.packets[0].Ok() && s.packets[0].Count() == s.packets[0].Pieces() == HELD && s.packets[0].last == HELD
    ensures c == s.packets[0].Wire(0, HELD - 1) && c.kind == SendFragment
    ensures var t := ReceiveFragment(s.channel, c, true, |a|);
      && t == Result(true, s.channel.(reliables := [AddFragment(NewIncoming(c, Num(1), 0), c)]), [])
      && Acknowledges(t, c)
  {
    hide Leads, InWindow, AddFragment, NewIncoming, TooLong, Lengths, Accepts;
    TwoAre(a, b);
    s, n := GoesOnWithout(a, b);
    var p := s.packets[0];
    c := p.Wire(0, HELD - 1);
    p.PieceBounds(HELD - 1);
    assert Num(1) != Num(END) && (Win(END) - Win(1)) % WINDOWS == FREE_WINDOWS + 2;
    OldFragment(s.channel, c, 1, END, |a|);
  }
}
