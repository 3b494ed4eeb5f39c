/** How large a reliable packet may be. A receiver keeps its number until a packet is complete. The
    sender stops where the eighth window behind that number begins, and in the seventh, whose commands
    are not acknowledged before, where the data in flight reaches its limit. What needs more is accepted
    by enet_peer_send and never arrives, nor does anything reliable after it. */
module LargePackets {
  import opened Words
  import opened Arithmetic
  import opened SequenceNumbers
  import opened IncomingChannel
  import opened DeliveryModel
  import opened DeliveryProof
  import opened DeliveryInvariant
  import opened DeliveryTheorems
  import opened ReliableRuns
  import opened DatagramLifetime

  /** The packet's numbers from the seventh window on, behind that of the number before them. */
  function FarNumbers(p: Packet): set<nat>
    requires p.first > 0
  {
    set i | p.first <= i <= p.last && Win(i) >= Win(p.first - 1) + FREE_WINDOWS - 1
  }

  /** The packet cannot get through if no more than most bytes of reliable data may be in flight: its
      numbers reach into the eighth window, or there is too much data in the seventh, or in one command. */
  ghost predicate TooLong(p: Packet, most: nat) {
    p.Reliable() && p.first > 0 && (
      || Win(p.last) >= Win(p.first - 1) + FREE_WINDOWS
      || InTransit(PieceLengths(p), p.first - 1, FarNumbers(p)) > most
      || exists f :: 0 <= f < p.Pieces() && p.Length(f) > most)
  }

  ghost predicate Arrived(s: State, tag: nat) {
    exists j :: 0 <= j < |s.out| && s.out[j].tag == tag
  }

  // ---- sums of lengths

  lemma {:induction false} LengthsGiveNumbers(packets: seq<Packet>)
    requires History(packets)
    ensures |Lengths(packets)| == LastReliable(packets)
  {
    if packets != [] {
      var n := |packets| - 1;
      HistoryBefore(packets, n);
      LengthsGiveNumbers(packets[..n]);
      assert Follows(packets[..n], packets[n]);
    }
  }

  lemma HistoryBefore(packets: seq<Packet>, n: nat)
    requires History(packets) && n <= |packets|
    ensures History(packets[..n])
  {
    hide Follows;
    forall k | 0 <= k < n ensures Follows(packets[..n][..k], packets[..n][k]) {
      assert packets[..n][..k] == packets[..k];
    }
  }

  lemma {:induction false} LengthsSplit(packets: seq<Packet>, tag: nat) returns (rest: seq<nat>)
    requires tag < |packets|
    ensures Lengths(packets) == Lengths(packets[..tag]) + PieceLengths(packets[tag]) + rest
    decreases |packets|
  {
    var n := |packets| - 1;
    if tag == n {
      rest := [];
    } else {
      rest := LengthsSplit(packets[..n], tag);
      assert packets[..n][..tag] == packets[..tag];
      rest := rest + PieceLengths(packets[n]);
    }
  }

  /** Of the data in flight, a packet's commands are a part, and the whole if all numbers are its. */
  lemma PartInTransit(packets: seq<Packet>, tag: nat, u: set<nat>)
    requires History(packets) && tag < |packets| && packets[tag].Reliable()
    ensures var p := packets[tag];
      && p.first > 0 && p.last == p.first + p.Pieces() - 1
      && InTransit(PieceLengths(p), p.first - 1, u) <= InTransit(Lengths(packets), 0, u)
      && ((forall i :: i in u ==> p.first <= i <= p.last) ==>
          InTransit(PieceLengths(p), p.first - 1, u) == InTransit(Lengths(packets), 0, u))
  {
    var p, before := packets[tag], Lengths(packets[..tag]);
    var rest := LengthsSplit(packets, tag);
    HistoryBefore(packets, tag);
    LengthsGiveNumbers(packets[..tag]);
    assert Follows(packets[..tag], p);
    hide History, Lengths, Packet.Pieces, InTransit;
    InTransitJoin(before + PieceLengths(p), rest, 0, u);
    InTransitJoin(before, PieceLengths(p), 0, u);
    if forall i :: i in u ==> p.first <= i <= p.last {
      NoneInTransit(before, 0, u);
      NoneInTransit(rest, p.last, u);
    }
  }

  // ---- what is too long never arrives

  /** No step sends with more data in flight than most. */
  predicate Within(step: Step, most: nat) { step.FirstSend? ==> step.limit <= most }

  /** No more is in flight, and no single command ever had more. */
  ghost predicate Bounded(s: State, most: nat) {
    && InTransit(Lengths(s.packets), 0, s.unacked) <= most
    && forall i :: 0 <= i < s.sent && i < |Lengths(s.packets)| ==> Lengths(s.packets)[i] <= most
  }

  /** What has arrived was sent. */
  lemma ArrivedIsSent(s: State, tag: nat)
    requires Inv(s) && Arrived(s, tag)
    ensures tag < |s.packets| && s.packets[tag].last <= s.sent
  {
    hide Inv;
    var r := Known(s);
    var j :| 0 <= j < |s.out| && s.out[j].tag == tag;
    assert Dispatched(s.packets, s.out[j], r, s.channel.unreliable);
    SettledOf(s.packets, s.channel, r, s.sent);
  }

  lemma NotArrivedAt(s: State, tag: nat) returns (r: nat)
    requires Inv(s) && tag < |s.packets| && s.packets[tag].Reliable() && !Arrived(s, tag)
    ensures InvAt(s, r) && History(s.packets) && r < s.packets[tag].first && r <= s.sent && Win(s.sent) < Win(r) + FREE_WINDOWS
  {
    r :| InvAt(s, r);
    hide InvAt;
    InvMeans(s, r);
    hide ChannelInv, OutInv, History;
    NotDispatched(s.packets, s.out, r, s.channel.unreliable, tag);
    BoundaryMeans(s.packets, s.channel, r, s.sent, tag);
    SettledOf(s.packets, s.channel, r, s.sent);
  }

  /** As long as it has not arrived, not all of it was sent. */
  lemma NotAllSent(s: State, tag: nat, most: nat)
    requires Inv(s) && Bounded(s, most) && tag < |s.packets| && TooLong(s.packets[tag], most) && !Arrived(s, tag)
    ensures s.sent < s.packets[tag].last
  {
    hide Inv, InvAt, History, Packet.Pieces, Packet.Length, Arrived, InTransit, Lengths;
    var r := NotArrivedAt(s, tag);
    var p := s.packets[tag];
    PartInTransit(s.packets, tag, FarNumbers(p));
    WinMonotone(r, p.first - 1);
    if p.last <= s.sent {
      WinMonotone(p.last, s.sent);
      FarStayKept(s, r, p);
      InTransitWithin(Lengths(s.packets), 0, FarNumbers(p), s.unacked);
      forall f | 0 <= f < p.Pieces() ensures p.Length(f) <= most {
        LengthAt(s.packets, tag, f);
      }
    }
  }

  /** Commands in the seventh window are not acknowledged, and so stay in flight. */
  lemma FarStayKept(s: State, r: nat, p: Packet)
    requires InvAt(s, r) && r < p.first && p.last <= s.sent
    ensures forall i :: i in FarNumbers(p) ==> i in s.unacked
  {
    hide Has, Good, Idle;
    WinMonotone(r, p.first - 1);
    forall i | i in FarNumbers(p) ensures i in s.unacked {
      SecuredIsNear(s.packets, s.channel.reliables, r, i);
    }
  }

  /** The length of a piece under its number. */
  lemma LengthAt(packets: seq<Packet>, tag: nat, f: nat)
    requires History(packets) && tag < |packets| && packets[tag].Reliable() && f < packets[tag].Pieces()
    ensures var i := packets[tag].first + f;
      1 <= i <= packets[tag].last && i <= |Lengths(packets)| && Lengths(packets)[i - 1] == packets[tag].Length(f)
  {
    var rest := LengthsSplit(packets, tag);
    HistoryBefore(packets, tag);
    LengthsGiveNumbers(packets[..tag]);
    assert Follows(packets[..tag], packets[tag]);
    hide History, Lengths, Packet.Pieces, Packet.Length;
  }

  lemma StepKeepsAway(s: State, step: Step, t: State, tag: nat, most: nat)
    requires Inv(s) && Bounded(s, most) && Next(s, step, t) && Timely(s, step) && Within(step, most)
    requires tag < |s.packets| && TooLong(s.packets[tag], most) && !Arrived(s, tag)
    ensures tag < |t.packets| && t.packets[tag] == s.packets[tag] && !Arrived(t, tag)
  {
    NextKeeps(s, step, t);
    StepMeans(s, step, t);
    hide Inv, Next, TooLong, Bounded;
    if Arrived(t, tag) {
      NotAllSent(s, tag, most);
      ArrivedIsSent(t, tag);
    }
  }

  /** Only a datagram that arrives makes the receiver dispatch, and it sends nothing. */
  lemma StepMeans(s: State, step: Step, t: State)
    requires Inv(s) && Next(s, step, t)
    ensures s.packets <= t.packets && s.sent <= t.sent
    ensures if step.Deliver? then t.packets == s.packets && t.sent == s.sent && t.unacked == s.unacked else t.out == s.out
  {
    hide Inv, NewPacket, WindowWraps, InTransit, Lengths;
    if step.Deliver? {
      var r := Known(s);
      EntriesHaveBits(s.packets, s.channel, r, s.sent);
      if step.tag < |s.packets| {
        NumbersOrdered(s.packets, step.tag);
      }
      DeliverMeans(s, t, step.tag, step.piece, step.room, step.maximumPacketSize);
    }
  }

  lemma BoundedKeeps(s: State, step: Step, t: State, most: nat)
    requires Inv(s) && Bounded(s, most) && Next(s, step, t) && Within(step, most)
    ensures Bounded(t, most)
  {
    StepMeans(s, step, t);
    hide Inv, Next, InTransit, Lengths;
    match step
    case Send(_, _, _, _) =>
      SendBounded(s, step, t, most);
    case FirstSend(limit) =>
      FirstSendBounded(s, step, t, most);
    case Deliver(_, _, _, _) =>
    case DeliverAck(number, found) =>
      AckMeans(s, step, t);
      InTransitWithin(Lengths(s.packets), 0, t.unacked, s.unacked);
  }

  lemma AckMeans(s: State, step: Step, t: State)
    requires Next(s, step, t) && step.DeliverAck?
    ensures t.packets == s.packets && t.sent == s.sent && t.unacked <= s.unacked
  {
  }

  lemma SendBounded(s: State, step: Step, t: State, most: nat)
    requires Inv(s) && Bounded(s, most) && Next(s, step, t) && step.Send?
    ensures Bounded(t, most)
  {
    hide NewPacket, Good, Idle, Secured, InTransit, PieceLengths, LastReliable, Packet.Count;
    var r :| InvAt(s, r);
    var p := NewPacket(s.packets, step.data, step.reliable, step.unreliableFragment, step.size);
    assert t.packets[..|s.packets|] == s.packets;
    InvMeans(s, r);
    LengthsGiveNumbers(s.packets);
    InTransitJoin(Lengths(s.packets), PieceLengths(p), 0, s.unacked);
    NoneInTransit(PieceLengths(p), |Lengths(s.packets)|, s.unacked);
  }

  lemma FirstSendBounded(s: State, step: Step, t: State, most: nat)
    requires Bounded(s, most) && Next(s, step, t) && step.FirstSend? && step.limit <= most
    ensures Bounded(t, most)
  {
    hide WindowWraps, Lengths, InTransit, LastReliable;
    if t.sent <= |Lengths(t.packets)| {
      InTransitOf(Lengths(t.packets), 0, t.unacked, t.sent);
    }
  }

  // ---- every run

  lemma {:induction false} HalvesBounded(states: seq<State>, steps: seq<Step>, k: nat, most: nat)
    requires Run(states, steps) && k < |states| && forall j :: 0 <= j < |steps| ==> Within(steps[j], most)
    ensures Bounded(Half(states[k]), most)
  {
    hide Next, Inv, Bounded, Timely, Half, BringsUnreliable, Within;
    if k == 0 {
      StartBounded(most);
    } else {
      HalvesBounded(states, steps, k - 1, most);
      var s, t := states[k - 1], states[k];
      assert Next(s, steps[k - 1], t);
      HalvesKeep(states, steps, k - 1);
      if BringsUnreliable(s, steps[k - 1]) {
        UnreliableStep(s, steps[k - 1], t);
      } else {
        ReliableStep(s, steps[k - 1], t);
        BoundedKeeps(Half(s), steps[k - 1], Half(t), most);
      }
    }
  }

  lemma StartBounded(most: nat)
    ensures Bounded(Half(Start()), most)
  {
  }

  lemma ArrivedHalf(s: State, tag: nat)
    requires Sorted(s) && tag < |s.packets| && s.packets[tag].Reliable()
    ensures Arrived(s, tag) <==> Arrived(Half(s), tag)
  {
    OnlySome(s.out);
    if j :| 0 <= j < |s.out| && s.out[j].tag == tag {
      OnlyHas(s.out, j);
    }
  }

  lemma {:induction false} OnlyHas(out: seq<Incoming>, j: nat)
    requires j < |out| && IsReliable(out[j])
    ensures out[j] in OnlyReliable(out)
  {
    if j < |out| - 1 {
      OnlyHas(out[..|out| - 1], j);
    }
  }

  lemma {:induction false} NeverArrives(states: seq<State>, steps: seq<Step>, k: nat, tag: nat, most: nat)
    requires Run(states, steps) && k < |states| && forall j :: 0 <= j < |steps| ==> Within(steps[j], most)
    requires tag < |states[k].packets| && TooLong(states[k].packets[tag], most)
    ensures !Arrived(Half(states[k]), tag)
  {
    hide Next, Inv, TooLong, Bounded, Timely, BringsUnreliable, Arrived, Half;
    if k > 0 {
      var s, step, t := states[k - 1], steps[k - 1], states[k];
      assert Next(s, step, t);
      HalvesKeep(states, steps, k - 1);
      HalvesBounded(states, steps, k - 1, most);
      HalfPackets(s, t);
      if BringsUnreliable(s, step) {
        UnreliableStep(s, step, t);
        NeverArrives(states, steps, k - 1, tag, most);
      } else {
        ReliableStep(s, step, t);
        StepMeans(Half(s), step, Half(t));
        if tag < |s.packets| {
          NeverArrives(states, steps, k - 1, tag, most);
          StepKeepsAway(Half(s), step, Half(t), tag, most);
        } else {
          NotYet(Half(s), step, Half(t), tag);
        }
      }
    }
  }

  lemma HalfPackets(s: State, t: State)
    ensures Half(s).packets == s.packets && Half(t).packets == t.packets
    ensures Half(s) == Half(t) ==> s.packets == t.packets
  {
  }

  lemma NotYet(s: State, step: Step, t: State, tag: nat)
    requires Inv(s) && Next(s, step, t) && |s.packets| <= tag < |t.packets|
    ensures !Arrived(t, tag)
  {
    StepMeans(s, step, t);
    hide Inv, Next;
    if Arrived(s, tag) {
      ArrivedIsSent(s, tag);
    }
  }

  /** In no run does a packet arrive that is too long for the data in flight, nor any reliable packet
      that was sent after it. */
  lemma TooLongNeverArrives(states: seq<State>, steps: seq<Step>, k: nat, tag: nat, later: nat, most: nat)
    requires Run(states, steps) && k < |states| && forall j :: 0 <= j < |steps| ==> Within(steps[j], most)
    requires tag < |states[k].packets| && TooLong(states[k].packets[tag], most)
    requires tag <= later < |states[k].packets| && states[k].packets[later].Reliable()
    ensures !Arrived(states[k], later)
  {
    hide Run, Inv, Arrived, Half, Sorted;
    NeverArrives(states, steps, k, tag, most);
    HalvesKeep(states, steps, k);
    var s := states[k];
    HalfPackets(s, s);
    ArrivedHalf(s, later);
    if Arrived(s, later) {
      IsReliablePacket(s.packets[tag], most);
      ArrivedBefore(Half(s), tag, later);
    }
  }

  lemma IsReliablePacket(p: Packet, most: nat)
    requires TooLong(p, most)
    ensures p.Reliable()
  {
  }

  lemma ArrivedBefore(s: State, tag: nat, later: nat)
    requires Inv(s) && tag < |s.packets| && s.packets[tag].Reliable() && tag <= later && Arrived(s, later)
    ensures Arrived(s, tag)
  {
    hide Inv, ChannelInv;
    var r := Known(s);
    var j :| 0 <= j < |s.out| && s.out[j].tag == later;
    assert Dispatched(s.packets, s.out[j], r, s.channel.unreliable);
    if tag < later {
      ReliableBefore(s.packets, s.out, r, s.channel.unreliable, j, tag);
    }
  }

  // ---- which packets are too long

  /** From eight windows of commands on a packet is always too long, and up to six never, unless a single
      command holds more than may be in flight. */
  lemma ByFragments(p: Packet, most: nat)
    requires p.Ok() && p.Reliable()
    ensures p.Pieces() >= FREE_WINDOWS * WINDOW_SIZE ==> TooLong(p, most)
    ensures p.Pieces() <= (FREE_WINDOWS - 2) * WINDOW_SIZE && (forall f :: 0 <= f < p.Pieces() ==> p.Length(f) <= most) ==> !TooLong(p, most)
  {
    hide Packet.Pieces, Packet.Length, InTransit;
    assert p.last == p.first - 1 + p.Pieces();
    if p.Pieces() <= (FREE_WINDOWS - 2) * WINDOW_SIZE {
      NoneInTransit(PieceLengths(p), p.first - 1, FarNumbers(p));
    }
  }

  lemma {:induction false} InTransitLeast(lengths: seq<nat>, base: nat, u: set<nat>, m: nat, each: nat)
    requires m <= |lengths| && (forall k :: m <= k < |lengths| ==> lengths[k] >= each)
    requires forall i :: base + m < i <= base + |lengths| ==> i in u
    ensures InTransit(lengths, base, u) >= (|lengths| - m) * each
  {
    if m == |lengths| {
      assert (|lengths| - m) * each == 0;
    } else {
      var n := |lengths| - 1;
      InTransitLeast(lengths[..n], base, u, m, each);
      assert (|lengths| - m) * each == (n - m) * each + each;
    }
  }

  /** The case of a small mtu: fragments of 548 bytes, 28800 of them, which is less than eight windows and
      less than the 32 MB that a host accepts by default. The 129 in the seventh window are too many for
      the largest windowSize. */
  lemma SmallFragments(data: seq<byte>, p: Packet)
    requires |data| == 28800 * 548 && p == NewPacket([], data, true, false, 548)
    ensures p.Count() <= MAXIMUM_FRAGMENT_COUNT && Win(p.last) < Win(p.first - 1) + FREE_WINDOWS
    ensures TooLong(p, MAXIMUM_WINDOW_SIZE)
  {
    assert p.Count() == 28800 && p.first == 1 && p.last == 28800;
    var lengths, m := PieceLengths(p), (FREE_WINDOWS - 1) * WINDOW_SIZE - 1;
    forall k | m <= k < |lengths| ensures lengths[k] >= 548 {
      assert k * 548 + 548 <= |data|;
    }
    InTransitLeast(lengths, 0, FarNumbers(p), m, 548);
  }
}
