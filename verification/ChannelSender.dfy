/** The sending half of a peer: the list of commands to send, the list of those sent and not yet
    acknowledged, and for each channel the counters of its windows, all changed in place. The methods
    keep the counters exact, and what they do to a channel are the steps of its state machine. */
module ChannelSender {
  import opened Words
  import opened FiniteSets
  import opened SequenceNumbers
  import opened Arithmetic
  import opened IncomingChannel
  import opened DeliveryModel
  import opened ReliableWindows
  import opened OutgoingLists

  const MAXIMUM_PACKET_COMMANDS := 32
  const BUFFER_MAXIMUM := 1 + 2 * MAXIMUM_PACKET_COMMANDS
  const THROTTLE_SCALE := 32
  const THROTTLE_COUNTER := 7
  const MAXIMUM_CHANNELS := 255
  const MAXIMUM_MTU := 4096
  // the channel of the commands that carry no data
  const CONTROL := 0xFF
  const UNSEQUENCED_SIZE := 8
  const PING_SIZE := 4

  /** What one pass reads of the peer and the host. */
  datatype Link = Link(mtu: nat, windowSize: nat, packetThrottle: nat, roundTripTime: uint32, variance: uint32,
                       timeoutLimit: uint32, now: uint32)

  /** The datagram being filled: commands, buffers and bytes used. */
  datatype Datagram = Datagram(commands: seq<Outgoing>, buffers: nat, bytes: nat)

  function WindowLimit(l: Link): nat {
    var w := l.packetThrottle * l.windowSize / THROTTLE_SCALE;
    if w > l.mtu then w else l.mtu
  }

  /** The command as it is kept after a sending. */
  function Sent(x: Outgoing, l: Link): Outgoing {
    var timeout := if x.timeout == 0 then (l.roundTripTime + 4 * l.variance) % WORD else x.timeout;
    x.(attempts := x.attempts + 1, sentTime := l.now, timeout := timeout,
       limit := if x.timeout == 0 then l.timeoutLimit * timeout % WORD else x.limit)
  }

  /** The fields that enet_peer_send and enet_peer_setup_outgoing_command give a command; lengths has those
      of the reliable commands of each channel. */
  predicate Formed(x: Outgoing, lengths: seq<seq<nat>>) {
    && (x.reliable ==> x.unreliable == 0) && (Unsequenced(x) ==> x.number == 0)
    && (x.packet <==> x.channel < |lengths|) && (!x.packet ==> x.length == x.unreliable == 0)
    && x.size + x.length < SPACE
    && (x.reliable && x.channel < |lengths| ==> 1 <= x.number <= |lengths[x.channel]| && x.length == lengths[x.channel][x.number - 1])
  }

  /** A packet that is neither reliable nor has a place in its channel's order: both its numbers are 0. */
  predicate Unsequenced(x: Outgoing) { !x.reliable && x.packet && x.unreliable == 0 }

  ghost predicate AllFormed(q: seq<Outgoing>, lengths: seq<seq<nat>>) {
    forall k :: 0 <= k < |q| ==> Formed(q[k], lengths)
  }

  ghost predicate AllSent(q: seq<Outgoing>) {
    forall k :: 0 <= k < |q| ==> q[k].reliable && q[k].attempts > 0
  }

  /** No command of a channel in the list up to i. */
  ghost predicate NoChannel(q: seq<Outgoing>, i: nat, channels: nat) {
    i <= |q| && forall k :: 0 <= k < i ==> !(q[k].reliable && q[k].channel < channels)
  }

  // ---- enet_peer_send

  /** commandSizes */
  function CommandSize(kind: Kind): nat {
    match kind
    case SendReliable => 6
    case SendUnreliable => 8
    case SendFragment => 24
    case SendUnreliableFragment => 24
  }

  /** Piece f of packet p as it is queued on channel c. */
  function PieceOf(p: Packet, c: nat, f: nat): Outgoing
    requires p.Ok() && f < p.Pieces()
  {
    Outgoing(c, p.Reliable(), if p.Reliable() then p.first + f else p.first, p.unreliable, CommandSize(p.kind), true,
             if p.Count() > 0 then p.Offset(f) else 0, if p.Count() > 0 then |p.Piece(f)| else |p.data|, 0, 0, 0, 0, 0)
  }

  function PiecesOf(p: Packet, c: nat, n: nat): (q: seq<Outgoing>)
    requires p.Ok() && n <= p.Pieces()
    ensures |q| == n && forall f :: 0 <= f < n ==> q[f] == PieceOf(p, c, f)
  {
    seq(n, f requires 0 <= f < n => PieceOf(p, c, f))
  }

  /** Before enet_peer_setup_outgoing_command gives it its numbers. */
  function Unnumbered(p: Packet, c: nat, n: nat): (q: seq<Outgoing>)
    requires p.Ok() && n <= p.Pieces()
    ensures |q| == n && forall f :: 0 <= f < n ==> q[f] == PieceOf(p, c, f).(number := 0, unreliable := 0)
  {
    seq(n, f requires 0 <= f < n => PieceOf(p, c, f).(number := 0, unreliable := 0))
  }

  /** A command with the numbers that it is given when it is queued. */
  function Queued(x: Outgoing, number: nat, unreliable: nat, group: uint16): Outgoing {
    x.(number := number, unreliable := unreliable, group := group, attempts := 0, sentTime := 0, timeout := 0, limit := 0)
  }

  function UnsequencedCommand(c: nat, length: nat): Outgoing {
    Outgoing(c, false, 0, 0, UNSEQUENCED_SIZE, true, 0, length, 0, 0, 0, 0, 0)
  }

  lemma MorePieces(p: Packet, c: nat, n: nat)
    requires p.Ok() && n < p.Pieces()
    ensures PiecesOf(p, c, n + 1) == PiecesOf(p, c, n) + [PieceOf(p, c, n)]
  {
  }

  lemma LastNumbers(p: Packet)
    requires p.Ok() && p.Pieces() == p.Count() > 0
    ensures p.last == if p.Reliable() then p.first + p.Count() - 1 else p.first
    ensures if p.Reliable() then p.unreliable == 0 else p.unreliable > 0
  {
  }

  lemma FragmentFields(p: Packet, c: nat, f: nat)
    requires p.Ok() && p.Fragmented() && f < p.Count() == p.Pieces() && p.size + CommandSize(SendFragment) < SPACE
    ensures var x := PieceOf(p, c, f);
      && x.channel == c && x.packet && x.reliable == p.Reliable() && x.size + x.length < SPACE
      && x.number == (if p.Reliable() then p.first + f else p.first) && x.unreliable == p.unreliable && x.length == p.Length(f)
      && x.attempts == 0 && x.sentTime == x.timeout == x.limit == 0 && x.group == 0 && (x.offset == 0 <==> f == 0)
  {
    p.PieceBounds(f);
    if f > 0 {
      MulMonotone(1, f, p.size);
    }
  }

  /** What setting up a command changes: the numbers given out, the lengths and the list. */
  datatype Numbering = Numbers(queued: seq<nat>, unreliable: seq<nat>, lengths: seq<seq<nat>>, list: seq<Outgoing>)

  /** k fragments of the packet have their numbers. */
  ghost predicate AtPiece(p: Packet, c: nat, k: nat, start: Numbering, now: Numbering) {
    && p.Ok() && k <= p.Pieces() && c < |start.queued| == |start.unreliable| == |start.lengths|
    && now.queued == start.queued[c := if p.Reliable() then p.first + k - 1 else p.first]
    && now.unreliable == start.unreliable[c := if k == 0 then start.unreliable[c] else p.unreliable]
    && now.lengths == Longer(start.lengths, c, FirstLengths(p, k))
    && now.list == start.list + PiecesOf(p, c, k)
    && p.first + k >= 1 + if p.Reliable() then 0 else k - 1
  }

  lemma FirstPiece(p: Packet, c: nat, start: Numbering)
    requires p.Ok() && c < |start.queued| == |start.unreliable| == |start.lengths|
    requires if p.Reliable() then p.first == start.queued[c] + 1 else p.first == start.queued[c]
    ensures AtPiece(p, c, 0, start, start)
  {
    hide Packet.Pieces, Longer, FirstLengths;
    Numbered(p);
    LongerNot(start.lengths, c);
    assert PiecesOf(p, c, 0) == [] && start.queued[c := start.queued[c]] == start.queued;
    assert start.unreliable[c := start.unreliable[c]] == start.unreliable;
  }

  lemma AtPieceMeans(p: Packet, c: nat, k: nat, start: Numbering, now: Numbering)
    requires AtPiece(p, c, k, start, now)
    ensures |now.queued| == |start.queued| && |now.unreliable| == |start.unreliable| && |now.lengths| == |start.lengths|
    ensures k > 0 ==> now.unreliable[c] == p.unreliable
  {
    hide Packet.Pieces, FirstLengths;
  }

  lemma NextPiece(p: Packet, c: nat, k: nat, start: Numbering, was: Numbering, now: Numbering)
    requires AtPiece(p, c, k, start, was) && p.Fragmented() && k < p.Count() == p.Pieces()
    requires !p.Reliable() ==> p.unreliable == start.unreliable[c] + 1 && p.unreliable > 0
    requires var x := PieceOf(p, c, k);
      var n := was.queued[c] + if p.Reliable() then 1 else 0;
      var u := if p.Reliable() then 0 else if k == 0 then was.unreliable[c] + 1 else was.unreliable[c];
      && now.queued == was.queued[c := n] && now.unreliable == was.unreliable[c := u]
      && now.lengths == (if p.Reliable() then Longer(was.lengths, c, [p.Length(k)]) else was.lengths)
      && now.list == was.list + [x.(number := n, unreliable := u)]
    ensures AtPiece(p, c, k + 1, start, now)
  {
    hide Packet.Pieces, Packet.Count, Packet.Length, Packet.Ok, PieceLengths, FirstLengths, Longer, Packet.Offset, Packet.Piece;
    LastNumbers(p);
    OneLength(p, k);
    LongerTwice(start.lengths, c, FirstLengths(p, k), if p.Reliable() then [p.Length(k)] else []);
    LongerNot(was.lengths, c);
    MorePieces(p, c, k);
    assert start.list + PiecesOf(p, c, k) + [PieceOf(p, c, k)] == start.list + PiecesOf(p, c, k + 1);
  }

  lemma LastPiece(p: Packet, c: nat, start: Numbering, now: Numbering)
    requires AtPiece(p, c, p.Count(), start, now) && p.Fragmented() && p.Count() == p.Pieces() > 0
    ensures now.queued == start.queued[c := p.last] && now.unreliable == start.unreliable[c := p.unreliable]
    ensures now.lengths == Longer(start.lengths, c, PieceLengths(p)) && now.list == start.list + PiecesOf(p, c, p.Count())
  {
    hide Packet.Pieces, Packet.Count, PieceLengths, FirstLengths, Longer;
    LastNumbers(p);
    Numbered(p);
  }

  /** Channel c has more lengths. */
  function Longer(lengths: seq<seq<nat>>, c: nat, more: seq<nat>): (r: seq<seq<nat>>)
    requires c < |lengths|
    ensures |r| == |lengths| && forall b :: 0 <= b < |r| ==> r[b] == if b == c then lengths[b] + more else lengths[b]
  {
    lengths[c := lengths[c] + more]
  }

  lemma LongerTwice(lengths: seq<seq<nat>>, c: nat, a: seq<nat>, b: seq<nat>)
    requires c < |lengths|
    ensures Longer(Longer(lengths, c, a), c, b) == Longer(lengths, c, a + b)
  {
    assert lengths[c] + a + b == lengths[c] + (a + b);
  }

  lemma LongerNot(lengths: seq<seq<nat>>, c: nat)
    requires c < |lengths|
    ensures Longer(lengths, c, []) == lengths
  {
    assert lengths[c] + [] == lengths[c];
  }

  /** The lengths of a packet's first k commands, if they are reliable. */
  function FirstLengths(p: Packet, k: nat): seq<nat>
    requires k <= p.Pieces()
  {
    if p.Reliable() then PieceLengths(p)[..k] else []
  }

  lemma OneLength(p: Packet, k: nat)
    requires k < p.Pieces()
    ensures FirstLengths(p, k + 1) == FirstLengths(p, k) + if p.Reliable() then [p.Length(k)] else []
  {
    hide Packet.Length, Packet.Pieces;
  }

  lemma Numbered(p: Packet)
    ensures FirstLengths(p, 0) == [] && FirstLengths(p, p.Pieces()) == PieceLengths(p)
  {
    hide Packet.Length, Packet.Pieces;
  }

  lemma WholeLength(p: Packet)
    requires p.Ok() && !p.Fragmented()
    ensures PieceLengths(p) == if p.Reliable() then [|p.data|] else []
  {
  }

  lemma WholePiece(p: Packet, c: nat)
    requires p.Ok() && !p.Fragmented()
    ensures p.Pieces() == 1 && p.Count() == 0 && p.first == p.last
    ensures PieceOf(p, c, 0) == Outgoing(c, p.Reliable(), p.first, p.unreliable, CommandSize(p.kind), true, 0, |p.data|, 0, 0, 0, 0, 0)
  {
  }

  /** The kind and the numbers that the sender chooses. */
  lemma NewPacketIs(packets: seq<Packet>, data: seq<byte>, reliable: bool, unreliableFragment: bool, size: nat, p: Packet)
    requires 0 < size && p == NewPacket(packets, data, reliable, unreliableFragment, size)
    ensures var n, u := LastReliable(packets), LastUnreliable(packets);
      && p.data == data && p.size == size && p.Fragmented() == (|data| > size)
      && p.Reliable() == (if |data| > size then !(!reliable && unreliableFragment && u < SPACE - 1) else reliable || u >= SPACE - 1)
      && p.kind == (if |data| > size then if p.Reliable() then SendFragment else SendUnreliableFragment
                    else if p.Reliable() then SendReliable else SendUnreliable)
      && (if p.Reliable() then p.first == n + 1 && p.unreliable == 0 else p.first == p.last == n && p.unreliable == u + 1)
      && (|data| > size ==> p.Count() == (|data| + size - 1) / size) && (|data| <= size ==> p.Count() == 0)
  {
  }

  /** The loop of enet_peer_send that cuts the packet. */
  method Cut(c: nat, data: seq<byte>, reliable: bool, size: nat, ghost p: Packet) returns (fragments: seq<Outgoing>)
    requires p.Ok() && p.Fragmented() && p.data == data && p.size == size && p.Reliable() == reliable
    requires p.Count() == p.Pieces() > 0
    ensures fragments == Unnumbered(p, c, p.Count())
  {
    hide Packet.Count, Packet.Offset, Packet.Piece;
    fragments := [];
    var fragmentNumber, fragmentOffset: nat, fragmentLength: nat := 0, 0, size;
    StartsAtZero(p);
    while fragmentOffset < |data|
      invariant 0 <= fragmentNumber <= p.Count() && fragmentOffset == Reach(p, fragmentNumber)
      invariant fragmentNumber < p.Count() ==> fragmentLength == size
      invariant fragments == Unnumbered(p, c, fragmentNumber)
      decreases p.Count() - fragmentNumber
    {
      CutAt(p, c, fragmentNumber);
      if |data| - fragmentOffset < fragmentLength {
        fragmentLength := |data| - fragmentOffset;
      }
      fragments := fragments + [Outgoing(c, reliable, 0, 0, CommandSize(if reliable then SendFragment else SendUnreliableFragment),
                                         true, fragmentOffset, fragmentLength, 0, 0, 0, 0, 0)];
      fragmentNumber := fragmentNumber + 1;
      fragmentOffset := fragmentOffset + fragmentLength;
    }
    ReachesEnd(p, fragmentNumber);
  }

  lemma ReachesEnd(p: Packet, n: nat)
    requires p.Ok() && p.Fragmented() && n <= p.Count() && Reach(p, n) == |p.data|
    ensures n == p.Count()
  {
    if n < p.Count() {
      p.PieceBounds(n);
    }
  }

  lemma CutAt(p: Packet, c: nat, n: nat)
    requires p.Ok() && p.Fragmented() && n < p.Count() == p.Pieces()
    ensures var length := if |p.data| - Reach(p, n) < p.size then |p.data| - Reach(p, n) else p.size;
      && Reach(p, n + 1) == Reach(p, n) + length && (n + 1 < p.Count() ==> length == p.size)
      && PieceOf(p, c, n).(number := 0, unreliable := 0) ==
         Outgoing(c, p.Reliable(), 0, 0, CommandSize(p.kind), true, Reach(p, n), length, 0, 0, 0, 0, 0)
  {
    p.PieceBounds(n);
    PieceReaches(p, n);
    assert (n + 1) * p.size == n * p.size + p.size;
    if n + 1 < p.Count() {
      p.PieceBounds(n + 1);
    }
  }

  /** A reliable command goes from one list to the other. */
  lemma Moves(out: seq<Outgoing>, sent: seq<Outgoing>, i: nat, x: Outgoing, c: nat)
    requires i < |out| && x.number == out[i].number && x.channel == out[i].channel && x.reliable && out[i].reliable && x.attempts > 0
    ensures Using(sent + [x], c) + Using(RemoveAt(out, i), c) ==
      Using(sent, c) + Using(out, c) + if out[i].channel == c && out[i].attempts == 0 then multiset{x.number} else multiset{}
    ensures Unsent(out, c) == Unsent(out[..i], c) + Waits(out[i], c) + Unsent(out[i + 1..], c)
    ensures Unsent(RemoveAt(out, i), c) == Unsent(out[..i], c) + Unsent(out[i + 1..], c)
    ensures Unsent(sent + [x], c) == Unsent(sent, c)
    ensures Total(sent + [x]) == Total(sent) + x.length
  {
    hide Using, Unsent, Total, RemoveAt;
    Concat(sent, [x], c);
    One(x, c);
    Remove(out, i, c);
  }

  /** If the first reliable command of the list was never sent, none of the list is in use. */
  lemma NothingWaitsAgain(out: seq<Outgoing>, c: nat)
    requires SentFirst(out) && out != [] && out[0].reliable && out[0].attempts == 0
    ensures Using(RemoveAt(out, 0), c) == multiset{}
  {
    forall k | 0 <= k < |out| ensures out[k].reliable ==> out[k].attempts == 0 {
      assert k > 0 ==> (out[0].reliable && out[k].reliable && out[0].attempts == 0 ==> out[k].attempts == 0);
    }
    NoneUsed(out, c);
    Remove(out, 0, c);
  }

  lemma {:induction false} NoneUsed(q: seq<Outgoing>, c: nat)
    requires forall k :: 0 <= k < |q| && q[k].reliable ==> q[k].attempts == 0
    ensures Using(q, c) == multiset{}
  {
    if q != [] {
      NoneUsed(q[..|q| - 1], c);
    }
  }

  /** The data of a channel's commands in use is a part of what is in flight. */
  lemma {:induction false} FlightCovers(sent: seq<Outgoing>, c: nat, lengths: seq<seq<nat>>)
    requires AllFormed(sent, lengths) && c < |lengths| && forall j :: j in Using(sent, c) ==> Using(sent, c)[j] == 1
    ensures InTransit(lengths[c], 0, Elements(Using(sent, c))) <= Total(sent)
  {
    hide InTransit, Elements, Formed;
    if sent == [] {
      NothingInUse();
      InTransitNone(lengths[c], 0);
    } else {
      var rest, x := sent[..|sent| - 1], sent[|sent| - 1];
      var u := Using(rest, c);
      forall j | j in u ensures u[j] == 1 {
        assert j in Using(sent, c);
      }
      FlightCovers(rest, c, lengths);
      FormedAt(sent, lengths, |sent| - 1);
      assert Using(sent, c) == u + Uses(x, c);
      if !(OnChannel(x, c) && x.attempts > 0) {
        assert u + Uses(x, c) == u;
      } else {
        ElementsGrow(u, x.number);
        InTransitBoth(lengths[c], 0, Elements(u), {x.number});
        InTransitOne(lengths[c], 0, x.number);
        LengthIs(x, c, lengths);
      }
    }
  }

  lemma NothingInUse()
    ensures Elements(multiset{}) == {}
  {
  }

  lemma LengthIs(x: Outgoing, c: nat, lengths: seq<seq<nat>>)
    requires Formed(x, lengths) && OnChannel(x, c) && c < |lengths|
    ensures 1 <= x.number <= |lengths[c]| && x.length == lengths[c][x.number - 1]
  {
  }

  lemma HasPacket(x: Outgoing, lengths: seq<seq<nat>>)
    requires Formed(x, lengths)
    ensures x.packet <==> x.channel < |lengths|
  {
  }

  lemma AllInFlight(ws: Windows, sent: seq<Outgoing>, out: seq<Outgoing>, c: nat, lengths: seq<seq<nat>>, last: nat, queued: nat)
    requires AllFormed(sent, lengths) && c < |lengths| && Using(out, c) == multiset{}
    requires ChannelOk(ws, Using(sent, c) + Using(out, c), Unsent(out, c), last, queued)
    ensures InTransit(lengths[c], 0, Elements(Using(sent, c) + Using(out, c))) <= Total(sent)
  {
    hide InTransit, Elements, Using, Unsent, AllFormed, Total, Counts;
    assert Using(sent, c) + Using(out, c) == Using(sent, c);
    FlightCovers(sent, c, lengths);
  }

  /** What one sending means for a channel: if it is the first of one of its commands, the next number is in use. */
  ghost predicate SentFor(first: bool, u: multiset<nat>, last: nat, u': multiset<nat>, last': nat) {
    if first then last' == last + 1 && u' == u + multiset{last'} && !WindowWraps(Elements(u), Num(last'))
    else last' == last && u' == u
  }

  lemma StepOrNot(lengths: seq<nat>, limit: nat, before: set<nat>, sent: nat, first: bool, u: multiset<nat>, last: nat, u': multiset<nat>, last': nat)
    requires SentSince(lengths, limit, before, sent, u, last) && SentFor(first, u, last, u', last')
    requires first ==> InTransit(lengths, 0, Elements(u')) <= limit
    ensures SentSince(lengths, limit, before, sent, u', last')
  {
    hide WindowWraps, Elements, SentSince, InTransit;
    if first {
      FirstSendStep(lengths, limit, before, sent, u, last);
    }
  }

  lemma FirstSendStep(lengths: seq<nat>, limit: nat, before: set<nat>, sent: nat, u: multiset<nat>, last: nat)
    requires SentSince(lengths, limit, before, sent, u, last) && !WindowWraps(Elements(u), Num(last + 1))
    requires InTransit(lengths, 0, Elements(u + multiset{last + 1})) <= limit
    ensures SentSince(lengths, limit, before, sent, u + multiset{last + 1}, last + 1)
  {
    hide *;
    SentMeans(lengths, limit, before, sent, u, last);
    ElementsGrow(u, last + 1);
    UnionGrows(before, sent + 1, last - sent);
    OneMoreSend(before, sent, last);
    SentAre(lengths, limit, before, sent, u + multiset{last + 1}, last + 1);
  }

  lemma SentMeans(lengths: seq<nat>, limit: nat, before: set<nat>, sent: nat, u: multiset<nat>, last: nat)
    requires SentSince(lengths, limit, before, sent, u, last)
    ensures sent <= last && FirstSends(before, sent, last) && Elements(u) == before + Interval(sent + 1, last - sent)
  {
    hide FirstSends, Elements, Interval, InTransit;
  }

  lemma SentAre(lengths: seq<nat>, limit: nat, before: set<nat>, sent: nat, u: multiset<nat>, last: nat)
    requires sent <= last && FirstSends(before, sent, last) && Elements(u) == before + Interval(sent + 1, last - sent)
    requires InTransit(lengths, 0, Elements(u)) <= limit
    ensures SentSince(lengths, limit, before, sent, u, last)
  {
    hide FirstSends, Elements, Interval, InTransit;
  }

  lemma OneMoreSend(before: set<nat>, sent: nat, last: nat)
    requires sent <= last && FirstSends(before, sent, last) && !WindowWraps(before + Interval(sent + 1, last - sent), Num(last + 1))
    ensures FirstSends(before, sent, last + 1)
  {
    hide WindowWraps, Interval, Num;
  }

  /** The first command of the list that a channel waits to send carries its next number. */
  lemma NextNumber(out: seq<Outgoing>, i: nat, c: nat, channels: nat, ws: Windows, u: multiset<nat>, last: nat, queued: nat)
    requires i < |out| && c < channels && NoChannel(out, i, channels) && OnChannel(out[i], c) && out[i].attempts == 0
    requires ChannelOk(ws, u, Unsent(out, c), last, queued)
    ensures out[i].number == last + 1
    ensures Unsent(out, c) == [last + 1] + Unsent(RemoveAt(out, i), c)
  {
    hide Counts, Win, RemoveAt, Using, Unsent;
    Remove(out, i, c);
    NoneOn(out[..i], c);
    assert Unsent(out, c)[0] == out[i].number;
  }

  /** One channel, when the command at position i is sent. */
  lemma ChannelSends(ws: Windows, out: seq<Outgoing>, sent: seq<Outgoing>, i: nat, x: Outgoing, c: nat, channels: nat, last: nat, queued: nat)
    requires ChannelOk(ws, Using(sent, c) + Using(out, c), Unsent(out, c), last, queued) && c < channels
    requires i < |out| && out[i].reliable && x.number == out[i].number && x.channel == out[i].channel && x.reliable && x.attempts > 0
    requires out[i].channel == c ==> NoChannel(out, i, channels)
    requires out[i].channel == c && out[i].attempts == 0 ==> !MustWait(ws, Num(out[i].number))
    ensures var u, u' := Using(sent, c) + Using(out, c), Using(sent + [x], c) + Using(RemoveAt(out, i), c);
      if out[i].channel == c && out[i].attempts == 0 then
        && out[i].number == last + 1 && u' == u + multiset{last + 1} && !WindowWraps(Elements(u), Num(last + 1))
        && |ws.counts| == WINDOWS && ws.counts[Num(last + 1) / WINDOW_SIZE] < SPACE - 1
        && ChannelOk(Counted(ws, Num(last + 1)), u', Unsent(RemoveAt(out, i), c), last + 1, queued)
      else u' == u && ChannelOk(ws, u', Unsent(RemoveAt(out, i), c), last, queued)
  {
    hide ChannelOk, MustWait, WindowWraps, Counted, RemoveAt, Using, Unsent, NoChannel;
    Moves(out, sent, i, x, c);
    if out[i].channel == c && out[i].attempts == 0 {
      NextNumber(out, i, c, channels, ws, Using(sent, c) + Using(out, c), last, queued);
      NotWrapped(ws, Using(sent, c) + Using(out, c), Unsent(out, c), last, queued);
      FirstSendOk(ws, Using(sent, c) + Using(out, c), Unsent(out, c), last, queued);
      assert Unsent(out, c)[1..] == Unsent(RemoveAt(out, i), c);
    } else {
      assert Waits(out[i], c) == [];
      assert Unsent(RemoveAt(out, i), c) == Unsent(out, c);
    }
  }

  /** The lists, when the command at position i is sent. */
  lemma ListsSend(out: seq<Outgoing>, sent: seq<Outgoing>, i: nat, x: Outgoing, lengths: seq<seq<nat>>)
    requires AllFormed(out, lengths) && AllFormed(sent, lengths) && AllSent(sent) && SentFirst(out)
    requires i < |out| && out[i].reliable && Formed(x, lengths) && x.reliable && x.attempts > 0
    ensures AllFormed(RemoveAt(out, i), lengths) && AllFormed(sent + [x], lengths) && AllSent(sent + [x]) && SentFirst(RemoveAt(out, i))
    ensures Total(sent + [x]) == Total(sent) + x.length
  {
    hide SentFirst, Formed, Total, Using, Unsent, Uses, Waits;
    SentFirstRemoved(out, i);
    Concat(sent, [x], 0);
    One(x, 0);
  }

  function Max(a: nat, b: nat): nat { if a > b then a else b }

  function ReliableOnly(q: seq<Outgoing>): seq<Outgoing> {
    if q == [] then [] else ReliableOnly(q[..|q| - 1]) + if q[|q| - 1].reliable then [q[|q| - 1]] else []
  }

  lemma NoneAdded(q: seq<Outgoing>)
    ensures q + ReliableOnly([]) == q
  {
  }

  lemma OneAdded(kept: seq<Outgoing>, q: seq<Outgoing>, x: Outgoing)
    ensures kept + ReliableOnly(q + [x]) == kept + ReliableOnly(q) + if x.reliable then [x] else []
  {
    assert (q + [x])[..|q|] == q;
  }

  /** From the set before and the number sent, to what is in use now and the number last. */
  ghost predicate SentSince(lengths: seq<nat>, limit: nat, before: set<nat>, sent: nat, u: multiset<nat>, last: nat) {
    && sent <= last && FirstSends(before, sent, last)
    && Elements(u) == before + Interval(sent + 1, last - sent)
    && (sent < last ==> InTransit(lengths, 0, Elements(u)) <= limit)
  }

  lemma SentNothing(lengths: seq<nat>, limit: nat, u: multiset<nat>, last: nat)
    ensures SentSince(lengths, limit, Elements(u), last, u, last)
  {
  }

  /** A sending in numbers: the first one sets the timeout to the round trip time and four times its variance. */
  lemma SendingIs(x: Outgoing, l: Link)
    ensures var y := Put(x, l);
      if !x.reliable then y == x
      else
        && y == x.(attempts := y.attempts, sentTime := y.sentTime, timeout := y.timeout, limit := y.limit)
        && y.attempts == x.attempts + 1 && y.sentTime == l.now
        && y.timeout == (if x.timeout == 0 then (l.roundTripTime + 4 * l.variance) % 0x1_0000_0000 else x.timeout)
        && y.limit == (if x.timeout == 0 then l.timeoutLimit * y.timeout % 0x1_0000_0000 else x.limit)
  {
  }

  lemma SentIs(x: Outgoing, l: Link)
    ensures Put(x, l).reliable == x.reliable && (x.reliable ==> Put(x, l) == Sent(x, l))
  {
  }

  // ---- what one pass does with each command of the list

  /** A command is passed over and stays in the list, goes into the datagram, is dropped for the throttle's
      sake, or is swept along with the one that was dropped in front of it. */
  datatype Fate = Stays | Goes | Dropped | Swept

  /** A command as it stands in the datagram. */
  function Put(x: Outgoing, l: Link): Outgoing { if x.reliable then Sent(x, l) else x }

  function Staying(q: seq<Outgoing>, fate: seq<Fate>): seq<Outgoing>
    requires |fate| <= |q|
  {
    if fate == [] then []
    else Staying(q, fate[..|fate| - 1]) + if fate[|fate| - 1] == Stays then [q[|fate| - 1]] else []
  }

  function Going(q: seq<Outgoing>, fate: seq<Fate>, l: Link): seq<Outgoing>
    requires |fate| <= |q|
  {
    if fate == [] then []
    else Going(q, fate[..|fate| - 1], l) + if fate[|fate| - 1] == Goes then [Put(q[|fate| - 1], l)] else []
  }

  /** x keeps y from being sent: its window is still in use, or the data in flight leaves it no room. */
  predicate Blocks(x: Outgoing, y: Outgoing, ws: seq<Windows>, inTransit: nat, l: Link) {
    (Wraps(x, ws) && y.channel < |ws|) || (Crowds(x, inTransit, l) && y.packet)
  }

  predicate Wraps(x: Outgoing, ws: seq<Windows>) {
    && x.reliable && x.channel < |ws| && x.attempts == 0
    && |ws[x.channel].counts| == WINDOWS && MustWait(ws[x.channel], Num(x.number))
  }

  predicate Crowds(x: Outgoing, inTransit: nat, l: Link) {
    x.reliable && x.packet && inTransit + x.length > WindowLimit(l)
  }

  lemma LimitIs(l: Link)
    ensures WindowLimit(l) == Max(l.packetThrottle * l.windowSize / 32, l.mtu)
  {
  }

  /** In numbers, for the window of command n. */
  lemma WrapsIn(used: set<nat>, n: nat)
    ensures WindowWraps(used, Num(n)) <==>
      n % 0x1000 == 0 && (|Before(used, n)| >= 0x1000 || exists j :: j in used && Behind(j, n) < 10)
  {
    hide Num, InFlight, Before;
    InWindowOf(n);
    BeforeIs(used, n);
    var w := Num(n) / WINDOW_SIZE;
    if j :| j in used && Behind(j, n) < 10 {
      var v := j / 0x1000 % 16;
      InFlightOf(used, v, j);
      assert (v + WINDOWS - w) % WINDOWS < FREE_WINDOWS + 2;
    }
    if v :| 0 <= v < WINDOWS && (v + WINDOWS - w) % WINDOWS < FREE_WINDOWS + 2 && InFlight(used, v) != {} {
      var j :| j in InFlight(used, v);
      InFlightOf(used, v, j);
    }
  }

  /** How many windows command j lies behind the beginning of the window of n, or in front of it, modulo 16. */
  function Behind(j: nat, n: nat): nat { (j / 0x1000 % 16 + 16 - n / 0x1000 % 16) % 16 }

  /** The commands in use in the window before. */
  function Before(used: set<nat>, n: nat): set<nat> { set j | j in used && j / 0x1000 % 16 == (n / 0x1000 + 15) % 16 }

  lemma BeforeIs(used: set<nat>, n: nat)
    ensures InFlight(used, (Num(n) / WINDOW_SIZE + WINDOWS - 1) % WINDOWS) == Before(used, n)
  {
    hide Num, InFlight;
    InWindowOf(n);
    OneWindowBack(n / 0x1000);
    var v := (Num(n) / WINDOW_SIZE + WINDOWS - 1) % WINDOWS;
    forall j: nat ensures j in InFlight(used, v) <==> j in Before(used, n) {
      InFlightOf(used, v, j);
    }
  }

  lemma OneWindowBack(q: nat)
    ensures (q % 16 + 15) % 16 == (q + 15) % 16
  {
    var a, r := q / 16, q % 16;
    if r == 0 {
      OfSixteen(q + 15, a, 15);
    } else {
      OfSixteen(q + 15, a + 1, r - 1);
    }
  }

  lemma OfSixteen(x: int, a: int, r: int)
    requires 0 <= r < 16 && x == r + 16 * a
    ensures x % 16 == r
  {
  }

  lemma InFlightOf(used: set<nat>, v: nat, j: nat)
    ensures j in InFlight(used, v) <==> j in used && j / 0x1000 % 16 == v
  {
    InWindowOf(j);
  }

  lemma InWindowOf(n: nat)
    ensures Num(n) / WINDOW_SIZE == n / 0x1000 % 16 && Num(n) % WINDOW_SIZE == n % 0x1000
  {
  }

  // ---- the throttle

  /** The counter after n of the commands that it counts. */
  function Ticks(count: nat, n: nat): nat { if n == 0 then count else Tick(Ticks(count, n - 1)) }

  lemma {:induction false} TicksAre(count: nat, n: nat)
    requires n > 0
    ensures Ticks(count, n) == (count + 7 * n) % 32
  {
    if n > 1 {
      TicksAre(count, n - 1);
      SevenMore(count + 7 * (n - 1));
    }
  }

  lemma SevenMore(x: nat)
    ensures (x % 32 + 7) % 32 == (x + 7) % 32
  {
    var a, r := x / 32, x % 32;
    if r < 25 {
      Residue(x + 7, a, r + 7);
    } else {
      Residue(x + 7, a + 1, r - 25);
    }
  }

  /** Each value of the counter comes up once in 32 turns, for 7 times 23 is 1 modulo 32. */
  function Place(count: nat, value: nat): int { (23 * (value - count) - 1) % 32 + 1 }

  lemma OnePlace(count: nat, value: nat, n: nat)
    requires value < 32 && 1 <= n <= 32
    ensures (count + 7 * n) % 32 == value <==> n == Place(count, value)
  {
    var d := value - count;
    if (count + 7 * n) % 32 == value {
      var a := (count + 7 * n) / 32;
      Residue(23 * d - 1, 5 * n - 23 * a, n - 1);
    }
    if n == Place(count, value) {
      var b := (23 * d - 1) / 32;
      assert n == 23 * d - 32 * b;
      Residue(count + 7 * n, 5 * d - 7 * b, value);
    }
  }

  lemma Residue(x: int, a: int, r: int)
    requires 0 <= r < 32 && x == r + 32 * a
    ensures x % 32 == r
  {
  }

  function Going32(count: nat, throttle: nat): set<nat> { set n | 1 <= n <= 32 && Ticks(count, n) <= throttle }

  lemma OneMoreGoes(count: nat, throttle: nat)
    requires 0 < throttle < 32
    ensures 1 <= Place(count, throttle) <= 32 && Place(count, throttle) !in Going32(count, throttle - 1)
    ensures Going32(count, throttle) == Going32(count, throttle - 1) + {Place(count, throttle)}
  {
    hide Place, Tick, Ticks;
    PlaceBetween(count, throttle);
    forall n: nat | 1 <= n <= 32 ensures Ticks(count, n) == throttle <==> n == Place(count, throttle) {
      TicksAre(count, n);
      OnePlace(count, throttle, n);
    }
  }

  lemma PlaceBetween(count: nat, value: nat)
    ensures 1 <= Place(count, value) <= 32
  {
  }

  /** Of any 32 unreliable packets in a row one more goes than the throttle says, and the others are dropped. */
  lemma {:induction false} ThrottleShare(count: nat, throttle: nat)
    requires throttle < 32
    ensures |Going32(count, throttle)| == throttle + 1
  {
    hide Place, Ticks, Tick;
    if throttle == 0 {
      PlaceBetween(count, 0);
      forall n: nat | 1 <= n <= 32 ensures Ticks(count, n) <= 0 <==> n == Place(count, 0) {
        TicksAre(count, n);
        OnePlace(count, 0, n);
      }
      assert Going32(count, 0) == {Place(count, 0)};
    } else {
      ThrottleShare(count, throttle - 1);
      OneMoreGoes(count, throttle);
    }
  }

  lemma CrowdsStill(x: Outgoing, inTransit: nat, inTransit': nat, l: Link)
    requires Crowds(x, inTransit, l) && inTransit <= inTransit'
    ensures Crowds(x, inTransit', l)
  {
  }

  /** The first command that stays. */
  predicate StaysFirst(fate: seq<Fate>, k: nat) {
    k < |fate| && fate[k] == Stays && Stays !in fate[..k]
  }

  /** Its window or the data in flight keeps x itself from being sent. */
  predicate Held(x: Outgoing, ws: seq<Windows>, inTransit: nat, l: Link) {
    x.reliable && x.packet && (Wraps(x, ws) || Crowds(x, inTransit, l))
  }

  /** The first command that stays is held back itself, and behind it every reliable packet stays. */
  ghost predicate Holding(q: seq<Outgoing>, fate: seq<Fate>, ws: seq<Windows>, inTransit: nat, l: Link) {
    && |fate| <= |q|
    && (forall k: nat :: StaysFirst(fate, k) ==> Held(q[k], ws, inTransit, l))
    && forall j, k :: 0 <= j < k < |fate| && fate[j] == Stays && q[k].reliable && q[k].packet ==> fate[k] == Stays
  }

  lemma HoldingNothing(q: seq<Outgoing>, ws: seq<Windows>, inTransit: nat, l: Link)
    ensures Holding(q, [], ws, inTransit, l)
  {
  }

  lemma {:induction false} NoneStays(q: seq<Outgoing>, fate: seq<Fate>)
    requires |fate| <= |q|
    ensures Staying(q, fate) == [] <==> Stays !in fate
  {
    if fate != [] {
      var k := |fate| - 1;
      NoneStays(q, fate[..k]);
      assert fate == fate[..k] + [fate[k]];
    }
  }

  lemma HoldingStays(q: seq<Outgoing>, fate: seq<Fate>, ws: seq<Windows>, inTransit: nat, l: Link)
    requires Holding(q, fate, ws, inTransit, l) && |fate| < |q|
    requires Staying(q, fate) == [] ==> Held(q[|fate|], ws, inTransit, l)
    ensures Holding(q, fate + [Stays], ws, inTransit, l)
  {
    hide Held, Staying;
    NoneStays(q, fate);
    var more := fate + [Stays];
    forall k: nat | StaysFirst(more, k) ensures Held(q[k], ws, inTransit, l) {
      if k < |fate| {
        assert more[..k] == fate[..k];
        assert StaysFirst(fate, k);
      } else {
        assert more[..k] == fate;
      }
    }
  }

  /** A command goes, or is dropped or swept. */
  lemma HoldingGoes(q: seq<Outgoing>, fate: seq<Fate>, f: Fate, ws: seq<Windows>, inTransit: nat, l: Link, ws': seq<Windows>, inTransit': nat)
    requires Holding(q, fate, ws, inTransit, l) && |fate| < |q| && f != Stays
    requires Staying(q, fate) == [] || (ws' == ws && inTransit' == inTransit && !(q[|fate|].reliable && q[|fate|].packet))
    ensures Holding(q, fate + [f], ws', inTransit', l)
  {
    hide Held, Staying;
    NoneStays(q, fate);
    var more := fate + [f];
    forall k: nat | StaysFirst(more, k) ensures Held(q[k], ws', inTransit', l) {
      assert more[..k] == fate[..k];
      assert StaysFirst(fate, k);
    }
  }

  lemma {:induction false} HoldingAside(q: seq<Outgoing>, fate: seq<Fate>, fate': seq<Fate>, ws: seq<Windows>, inTransit: nat, l: Link)
    requires Holding(q, fate, ws, inTransit, l) && fate <= fate' && |fate'| <= |q|
    requires forall k :: |fate| <= k < |fate'| ==> fate'[k] != Stays && !q[k].reliable
    ensures Holding(q, fate', ws, inTransit, l)
    decreases |fate'|
  {
    hide Holding;
    if |fate'| == |fate| {
      assert fate' == fate;
    } else {
      var n := |fate'| - 1;
      HoldingAside(q, fate, fate'[..n], ws, inTransit, l);
      HoldingGoes(q, fate'[..n], fate'[n], ws, inTransit, l, ws, inTransit);
      assert fate' == fate'[..n] + [fate'[n]];
    }
  }

  /** The first command that stays begins a window all of which before it, or anything in which and in the nine behind
      it, is in use; or the data in flight leaves it no room. */
  lemma HeldBack(q: seq<Outgoing>, fate: seq<Fate>, k: nat, ws: seq<Windows>, used: seq<set<nat>>, inTransit: nat, l: Link)
    requires Holding(q, fate, ws, inTransit, l) && StaysFirst(fate, k)
    requires |used| == |ws| && forall c :: 0 <= c < |ws| ==> Counts(ws[c], used[c])
    ensures var x := q[k];
      && x.reliable && x.packet
      && ((x.channel < |used| && x.attempts == 0 && WindowWraps(used[x.channel], Num(x.number)))
          || inTransit + x.length > Max(l.packetThrottle * l.windowSize / 32, l.mtu))
  {
    hide MustWait, WindowWraps, Counts, WindowLimit, Num, Max;
    LimitIs(l);
    if Wraps(q[k], ws) {
      MustWaitIs(ws[q[k].channel], used[q[k].channel], Num(q[k].number));
    }
  }

  /** The commands at which the throttle counts. */
  predicate Throttled(x: Outgoing) { !x.reliable && x.packet && x.offset == 0 }

  function Tick(count: nat): nat { (count + THROTTLE_COUNTER) % THROTTLE_SCALE }

  /** packetThrottleCounter after these decisions. */
  function Counter(q: seq<Outgoing>, fate: seq<Fate>, start: nat): nat
    requires |fate| <= |q|
  {
    if fate == [] then start
    else
      var k := |fate| - 1;
      var count := Counter(q, fate[..k], start);
      if Throttled(q[k]) && fate[k] != Swept then Tick(count) else count
  }

  /** What may become of the command at position k, where count is the throttle's counter: an unreliable
      one is dropped just when the counter is beyond the throttle, and never stays; a reliable one stays
      only if it or one before it may not be sent, and is not dropped. */
  ghost predicate Rightly(q: seq<Outgoing>, k: nat, f: Fate, count: nat, ws: seq<Windows>, inTransit: nat, l: Link)
    requires k < |q|
  {
    match f
    case Stays => q[k].reliable && exists j :: 0 <= j <= k && Blocks(q[j], q[k], ws, inTransit, l)
    case Goes => Throttled(q[k]) ==> count <= l.packetThrottle
    case Dropped => Throttled(q[k]) && count > l.packetThrottle
    case Swept => !q[k].reliable && q[k].packet
  }

  /** When a command is dropped: as the first piece of an unreliable packet at which the throttle's counter, 7 more at
      each of them modulo 32, is beyond the throttle. */
  lemma DropsAre(q: seq<Outgoing>, fate: seq<Fate>, f: Fate, start: nat, ws: seq<Windows>, inTransit: nat, l: Link)
    requires |fate| < |q|
    ensures var x, was, now := q[|fate|], Counter(q, fate, start), Counter(q, fate + [f], start);
      var counts := !x.reliable && x.packet && x.offset == 0;
      && now == (if counts && f != Swept then (was + 7) % 32 else was)
      && (f == Dropped ==> (Rightly(q, |fate|, f, now, ws, inTransit, l) <==> counts && now > l.packetThrottle))
      && (f == Goes ==> (Rightly(q, |fate|, f, now, ws, inTransit, l) <==> !(counts && now > l.packetThrottle)))
  {
    assert (fate + [f])[..|fate|] == fate;
  }

  predicate SameNumbers(x: Outgoing, y: Outgoing) {
    Num(x.number) == Num(y.number) && x.unreliable == y.unreliable
  }

  /** Where the commands end that follow the one at position i and have its numbers, from position j on. */
  function RunEnd(q: seq<Outgoing>, i: nat, j: nat): (n: nat)
    requires i < j <= |q|
    ensures j <= n <= |q| && (forall k :: j <= k < n ==> SameNumbers(q[k], q[i])) && (n < |q| ==> !SameNumbers(q[n], q[i]))
    decreases |q| - j
  {
    if j == |q| || !SameNumbers(q[j], q[i]) then j else RunEnd(q, i, j + 1)
  }

  /** Dropping the command at position k would take a reliable command with it, or come upon one without
      a packet, whose packet the source looks for. */
  ghost predicate Harms(q: seq<Outgoing>, k: nat)
    requires k < |q|
  {
    exists j :: k < j < RunEnd(q, k, k + 1) && (q[j].reliable || !q[j].packet)
  }

  /** The drop that begins at position i ends in front of position n: at the end of the run, or at the first
      command without a packet. */
  ghost predicate DropEnds(q: seq<Outgoing>, i: nat, n: nat)
    requires i < |q|
  {
    i < n <= RunEnd(q, i, i + 1) && (n < RunEnd(q, i, i + 1) ==> !q[n].packet) && forall k :: i <= k < n ==> q[k].packet
  }

  /** A reliable command is taken behind position i, in front of position n. */
  ghost predicate Takes(q: seq<Outgoing>, i: nat, n: nat)
    requires n <= |q|
  {
    exists k :: i < k < n && q[k].reliable
  }

  lemma TakesNone(q: seq<Outgoing>, i: nat)
    requires i <= |q|
    ensures !Takes(q, i, i)
  {
  }

  lemma TakesMore(q: seq<Outgoing>, i: nat, n: nat)
    requires i <= n < |q| && !q[i].reliable
    ensures Takes(q, i, n + 1) <==> Takes(q, i, n) || q[n].reliable
  {
    if q[n].reliable {
      assert i < n;
    }
  }

  lemma TakesHarm(q: seq<Outgoing>, i: nat, n: nat)
    requires i < n <= |q| && (forall k :: i < k < n ==> q[k].packet && SameNumbers(q[k], q[i]))
    requires n < |q| && SameNumbers(q[n], q[i]) ==> !q[n].packet
    ensures n <= RunEnd(q, i, i + 1) && (n < RunEnd(q, i, i + 1) ==> !q[n].packet)
    ensures Harms(q, i) <==> Takes(q, i, n) || n < RunEnd(q, i, i + 1)
    ensures !Harms(q, i) ==> forall k :: i < k < n ==> !q[k].reliable
  {
    hide SameNumbers;
    if k :| i < k < n && q[k].reliable {
      assert k < RunEnd(q, i, i + 1);
    }
  }

  /** No command has the numbers of an unreliable one in front of it unless it is unreliable data as well. */
  ghost predicate Sheltered(q: seq<Outgoing>) {
    forall k :: 0 <= k < |q| - 1 && !q[k].reliable && q[k].packet && SameNumbers(q[k], q[k + 1]) ==>
      !q[k + 1].reliable && q[k + 1].packet
  }

  lemma {:induction false} ShelteredRun(q: seq<Outgoing>, i: nat, n: nat)
    requires Sheltered(q) && i < n <= |q| && !q[i].reliable && q[i].packet
    requires forall k :: i < k < n ==> SameNumbers(q[k], q[i])
    ensures forall k :: i <= k < n ==> !q[k].reliable && q[k].packet
  {
    if n > i + 1 {
      ShelteredRun(q, i, n - 1);
      assert SameNumbers(q[n - 2], q[n - 2 + 1]);
    }
  }

  lemma ShelteredIsSafe(q: seq<Outgoing>, k: nat)
    requires Sheltered(q) && k < |q| && !q[k].reliable && q[k].packet
    ensures !Harms(q, k)
  {
    hide SameNumbers;
    ShelteredRun(q, k, RunEnd(q, k, k + 1));
  }

  /** As long as no number of a reliable command, or of one without data, is 0 again, nothing is taken for
      an unsequenced command. */
  lemma ShelteredBeforeWrap(q: seq<Outgoing>, lengths: seq<seq<nat>>)
    requires AllFormed(q, lengths) && forall k :: 0 <= k < |q| && (q[k].reliable || !q[k].packet) ==> Num(q[k].number) != 0
    ensures Sheltered(q)
  {
    forall k | 0 <= k < |q| - 1 && !q[k].reliable && q[k].packet && SameNumbers(q[k], q[k + 1])
      ensures !q[k + 1].reliable && q[k + 1].packet
    {
      assert Formed(q[k], lengths) && Formed(q[k + 1], lengths);
    }
  }

  /** A reliable command is dropped with an unreliable one if and only if that is unsequenced and the
      reliable one's number is 0 again, with nothing between them but commands with the numbers 0, 0. */
  lemma TakenForUnsequenced(q: seq<Outgoing>, i: nat, lengths: seq<seq<nat>>)
    requires AllFormed(q, lengths) && i < |q| && !q[i].reliable && q[i].packet
    ensures (exists k :: i < k < RunEnd(q, i, i + 1) && q[k].reliable) <==>
      Unsequenced(q[i]) && exists k :: i < k < |q| && q[k].reliable && forall j :: i < j <= k ==> Num(q[j].number) == q[j].unreliable == 0
  {
    hide Num, RunEnd;
    var n := RunEnd(q, i, i + 1);
    NumZero();
    assert Formed(q[i], lengths);
    if k :| i < k < n && q[k].reliable {
      assert Formed(q[k], lengths) && SameNumbers(q[k], q[i]);
      forall j | i < j <= k ensures Num(q[j].number) == q[j].unreliable == 0 {
        assert SameNumbers(q[j], q[i]);
      }
    }
    if k :| Unsequenced(q[i]) && i < k < |q| && q[k].reliable && forall j :: i < j <= k ==> Num(q[j].number) == q[j].unreliable == 0 {
      assert n <= k ==> !SameNumbers(q[n], q[i]);
    }
  }

  /** And a command without a packet is come upon if and only if it is one of the peer's, its number is 0
      again, and nothing but the numbers 0, 0 stands between the two. */
  lemma NoPacketToDrop(q: seq<Outgoing>, i: nat, lengths: seq<seq<nat>>)
    requires AllFormed(q, lengths) && i < |q| && !q[i].reliable && q[i].packet
    ensures (exists k :: i < k < RunEnd(q, i, i + 1) && !q[k].packet) <==>
      Unsequenced(q[i]) && exists k :: i < k < |q| && !q[k].packet && forall j :: i < j <= k ==> Num(q[j].number) == q[j].unreliable == 0
  {
    hide Num, RunEnd;
    var n := RunEnd(q, i, i + 1);
    NumZero();
    assert Formed(q[i], lengths);
    if k :| i < k < n && !q[k].packet {
      assert Formed(q[k], lengths) && SameNumbers(q[k], q[i]);
      forall j | i < j <= k ensures Num(q[j].number) == q[j].unreliable == 0 {
        assert SameNumbers(q[j], q[i]);
      }
    }
    if k :| Unsequenced(q[i]) && i < k < |q| && !q[k].packet && forall j :: i < j <= k ==> Num(q[j].number) == q[j].unreliable == 0 {
      assert n <= k ==> !SameNumbers(q[n], q[i]);
    }
  }

  lemma NumZero()
    ensures Num(0) == 0
  {
  }

  /** A pass: the list q at its beginning and the throttle's counter then; what was decided on the first
      commands of q; what was sent. */
  datatype Pass = Pass(q: seq<Outgoing>, start: nat, fate: seq<Fate>, added: seq<Outgoing>)

  /** What was swept stands right behind what was dropped, and all of that is swept. */
  ghost predicate Sweeps(q: seq<Outgoing>, fate: seq<Fate>)
    requires |fate| <= |q|
  {
    && (forall k :: 0 <= k < |fate| && fate[k] == Dropped ==> RunEnd(q, k, k + 1) <= |fate| && SweptUpTo(q, fate, k, RunEnd(q, k, k + 1)))
    && forall j :: 0 <= j < |fate| && fate[j] == Swept ==> exists k :: 0 <= k < j && fate[k] == Dropped && j < RunEnd(q, k, k + 1)
  }

  ghost predicate SweptUpTo(q: seq<Outgoing>, fate: seq<Fate>, k: nat, e: nat) {
    e <= |fate| && forall j :: k < j < e ==> fate[j] == Swept
  }

  ghost predicate AllRight(p: Pass, ws: seq<Windows>, inTransit: nat, l: Link) {
    |p.fate| <= |p.q| && forall k :: 0 <= k < |p.fate| ==> Rightly(p.q, k, p.fate[k], Counter(p.q, p.fate[..k + 1], p.start), ws, inTransit, l)
  }

  /** out is the list now, count the throttle's counter. */
  ghost predicate Passing(p: Pass, out: seq<Outgoing>, count: nat, ws: seq<Windows>, inTransit: nat, l: Link) {
    && |p.fate| <= |p.q| && out == Staying(p.q, p.fate) + p.q[|p.fate|..] && p.added == Going(p.q, p.fate, l)
    && count == Counter(p.q, p.fate, p.start) && Sweeps(p.q, p.fate) && AllRight(p, ws, inTransit, l)
  }

  lemma PassingStarts(q: seq<Outgoing>, start: nat, ws: seq<Windows>, inTransit: nat, l: Link)
    ensures Passing(Pass(q, start, [], []), q, start, ws, inTransit, l) && Staying(q, []) == []
  {
  }

  lemma PassingMeans(p: Pass, out: seq<Outgoing>, count: nat, ws: seq<Windows>, inTransit: nat, l: Link)
    requires Passing(p, out, count, ws, inTransit, l)
    ensures |p.fate| <= |p.q| && out == Staying(p.q, p.fate) + p.q[|p.fate|..] && p.added == Going(p.q, p.fate, l)
    ensures count == Counter(p.q, p.fate, p.start) && Sweeps(p.q, p.fate) && AllRight(p, ws, inTransit, l)
    ensures |Staying(p.q, p.fate)| <= |out| && (|Staying(p.q, p.fate)| < |out| <==> |p.fate| < |p.q|)
    ensures |p.fate| < |p.q| ==> out[|Staying(p.q, p.fate)|] == p.q[|p.fate|]
  {
    hide Sweeps, AllRight, Staying, Going, Counter;
  }

  lemma OneFate(p: Pass, f: Fate, l: Link)
    requires |p.fate| < |p.q|
    ensures Staying(p.q, p.fate + [f]) == Staying(p.q, p.fate) + if f == Stays then [p.q[|p.fate|]] else []
    ensures Going(p.q, p.fate + [f], l) == Going(p.q, p.fate, l) + if f == Goes then [Put(p.q[|p.fate|], l)] else []
    ensures Counter(p.q, p.fate + [f], p.start) ==
      var count := Counter(p.q, p.fate, p.start); if Throttled(p.q[|p.fate|]) && f != Swept then Tick(count) else count
  {
    hide Put, Throttled, Tick;
    assert (p.fate + [f])[..|p.fate|] == p.fate;
  }

  /** One more decision. */
  function Decided(p: Pass, f: Fate, l: Link): Pass
    requires |p.fate| < |p.q|
  {
    Pass(p.q, p.start, p.fate + [f], p.added + if f == Goes then [Put(p.q[|p.fate|], l)] else [])
  }

  lemma DecidedRight(p: Pass, f: Fate, ws: seq<Windows>, inTransit: nat, l: Link)
    requires AllRight(p, ws, inTransit, l) && |p.fate| < |p.q|
    requires Rightly(p.q, |p.fate|, f, Counter(p.q, p.fate + [f], p.start), ws, inTransit, l)
    ensures AllRight(Decided(p, f, l), ws, inTransit, l)
  {
    hide Rightly, Counter, Put;
    var t := Decided(p, f, l);
    forall k | 0 <= k < |t.fate| ensures Rightly(t.q, k, t.fate[k], Counter(t.q, t.fate[..k + 1], t.start), ws, inTransit, l) {
      if k < |p.fate| {
        assert t.fate[..k + 1] == p.fate[..k + 1];
      } else {
        assert t.fate[..k + 1] == t.fate;
      }
    }
  }

  lemma SweepsOn(q: seq<Outgoing>, fate: seq<Fate>, f: Fate)
    requires |fate| < |q| && Sweeps(q, fate) && f != Dropped && f != Swept
    ensures Sweeps(q, fate + [f])
  {
    hide RunEnd;
    var more := fate + [f];
    forall j | 0 <= j < |more| && more[j] == Swept ensures exists k :: 0 <= k < j && more[k] == Dropped && j < RunEnd(q, k, k + 1) {
      assert fate[j] == Swept;
      var k :| 0 <= k < j && fate[k] == Dropped && j < RunEnd(q, k, k + 1);
      assert more[k] == Dropped;
    }
  }

  lemma StaysBehind(p: Pass, out: seq<Outgoing>, count: nat, ws: seq<Windows>, inTransit: nat, l: Link, j: nat)
    requires Passing(p, out, count, ws, inTransit, l) && |p.fate| < |p.q| && p.q[|p.fate|].reliable
    requires j <= |p.fate| && Blocks(p.q[j], p.q[|p.fate|], ws, inTransit, l)
    ensures Passing(Decided(p, Stays, l), out, count, ws, inTransit, l)
    ensures |Staying(p.q, p.fate + [Stays])| == |Staying(p.q, p.fate)| + 1
  {
    hide Blocks, Put, Staying, Going, Counter, Sweeps, AllRight;
    OneFate(p, Stays, l);
    DecidedRight(p, Stays, ws, inTransit, l);
    SweepsOn(p.q, p.fate, Stays);
    assert p.q[|p.fate|..] == [p.q[|p.fate|]] + p.q[|p.fate| + 1..];
  }

  /** A command is sent: what stayed before still has its reason, for the windows change only if nothing
      has stayed, and the data in flight only grows. */
  lemma GoesOut(p: Pass, out: seq<Outgoing>, count: nat, ws: seq<Windows>, inTransit: nat, l: Link, ws': seq<Windows>, inTransit': nat)
    requires Passing(p, out, count, ws, inTransit, l) && |Staying(p.q, p.fate)| < |out| && |p.fate| < |p.q|
    requires inTransit <= inTransit' && (ws' == ws || Staying(p.q, p.fate) == [])
    requires Throttled(p.q[|p.fate|]) ==> Tick(count) <= l.packetThrottle
    ensures var count' := if Throttled(p.q[|p.fate|]) then Tick(count) else count;
      Passing(Decided(p, Goes, l), RemoveAt(out, |Staying(p.q, p.fate)|), count', ws', inTransit', l)
    ensures Staying(p.q, p.fate + [Goes]) == Staying(p.q, p.fate)
  {
    hide Put, Staying, Going, Counter, Sweeps, AllRight, Throttled, Tick;
    OneFate(p, Goes, l);
    StillRight(p, ws, inTransit, l, ws', inTransit');
    DecidedRight(p, Goes, ws', inTransit', l);
    SweepsOn(p.q, p.fate, Goes);
    assert p.q[|p.fate|..] == [p.q[|p.fate|]] + p.q[|p.fate| + 1..];
  }

  lemma StillRight(p: Pass, ws: seq<Windows>, inTransit: nat, l: Link, ws': seq<Windows>, inTransit': nat)
    requires AllRight(p, ws, inTransit, l) && inTransit <= inTransit' && (ws' == ws || Staying(p.q, p.fate) == [])
    ensures AllRight(p, ws', inTransit', l)
  {
    hide Rightly, Counter, Staying;
    forall k | 0 <= k < |p.fate| ensures Rightly(p.q, k, p.fate[k], Counter(p.q, p.fate[..k + 1], p.start), ws', inTransit', l) {
      ReasonStays(p.q, k, p.fate, Counter(p.q, p.fate[..k + 1], p.start), ws, inTransit, l, ws', inTransit');
    }
  }

  lemma ReasonStays(q: seq<Outgoing>, k: nat, fate: seq<Fate>, count: nat, ws: seq<Windows>, inTransit: nat, l: Link,
                    ws': seq<Windows>, inTransit': nat)
    requires k < |fate| <= |q| && Rightly(q, k, fate[k], count, ws, inTransit, l)
    requires inTransit <= inTransit' && (ws' == ws || Staying(q, fate) == [])
    ensures Rightly(q, k, fate[k], count, ws', inTransit', l)
  {
    hide Staying, MustWait, WindowLimit;
    if fate[k] == Stays {
      SomeStays(q, fate, k);
      var j :| 0 <= j <= k && Blocks(q[j], q[k], ws, inTransit, l);
      assert Blocks(q[j], q[k], ws', inTransit', l);
    }
  }

  lemma {:induction false} SomeStays(q: seq<Outgoing>, fate: seq<Fate>, k: nat)
    requires k < |fate| <= |q| && fate[k] == Stays
    ensures Staying(q, fate) != []
    decreases |fate|
  {
    if k < |fate| - 1 {
      SomeStays(q, fate[..|fate| - 1], k);
    }
  }

  /** The rest of the list is as it was, and so is the run behind its first command. */
  lemma {:induction false} RunShifts(q: seq<Outgoing>, k: nat, out: seq<Outgoing>, i: nat, j: nat)
    requires k < |q| && i < j <= |out| && out[i..] == q[k..]
    ensures RunEnd(out, i, j) - i == RunEnd(q, k, k + (j - i)) - k
    decreases |out| - j
  {
    assert forall n :: i <= n < |out| ==> out[n] == out[i..][n - i] == q[k..][n - i] == q[n - i + k];
    if j < |out| && SameNumbers(out[j], out[i]) {
      RunShifts(q, k, out, i, j + 1);
    }
  }

  lemma HarmsShifts(q: seq<Outgoing>, k: nat, out: seq<Outgoing>, i: nat)
    requires k < |q| && i < |out| && out[i..] == q[k..]
    ensures RunEnd(out, i, i + 1) - i == RunEnd(q, k, k + 1) - k && (Harms(out, i) <==> Harms(q, k))
  {
    hide RunEnd;
    RunShifts(q, k, out, i, i + 1);
    assert forall n :: i <= n < |out| ==> out[n] == out[i..][n - i] == q[k..][n - i] == q[n - i + k];
    if Harms(q, k) {
      var j :| k < j < RunEnd(q, k, k + 1) && (q[j].reliable || !q[j].packet);
      assert out[j - k + i] == q[j];
    }
    if Harms(out, i) {
      var j :| i < j < RunEnd(out, i, i + 1) && (out[j].reliable || !out[j].packet);
      assert out[j] == q[j - i + k];
    }
  }

  /** What kept commands from being sent before keeps them still. */
  lemma FlagsStay(p: Pass, f: Fate, ws: seq<Windows>, inTransit: nat, l: Link, ws': seq<Windows>, inTransit': nat, wrap: bool, exceeded: bool)
    requires |p.fate| < |p.q| && inTransit <= inTransit' && (wrap ==> ws' == ws)
    requires wrap ==> exists j :: 0 <= j < |p.fate| && Wraps(p.q[j], ws)
    requires exceeded ==> exists j :: 0 <= j < |p.fate| && Crowds(p.q[j], inTransit, l)
    ensures var t := Decided(p, f, l);
      && (wrap ==> exists j :: 0 <= j < |t.fate| && Wraps(t.q[j], ws'))
      && (exceeded ==> exists j :: 0 <= j < |t.fate| && Crowds(t.q[j], inTransit', l))
  {
    hide Wraps, Crowds, Put;
    var t := Decided(p, f, l);
    if wrap {
      var j :| 0 <= j < |p.fate| && Wraps(p.q[j], ws);
      assert j < |t.fate| && Wraps(t.q[j], ws');
    }
    if exceeded {
      var j :| 0 <= j < |p.fate| && Crowds(p.q[j], inTransit, l);
      CrowdsStill(p.q[j], inTransit, inTransit', l);
      assert j < |t.fate| && Crowds(t.q[j], inTransit', l);
    }
  }

  lemma FlagsLast(p: Pass, t: Pass, ws: seq<Windows>, inTransit: nat, l: Link, wrap: bool, exceeded: bool)
    requires t.q == p.q && |p.fate| <= |t.fate| <= |p.q|
    requires wrap ==> exists j :: 0 <= j < |p.fate| && Wraps(p.q[j], ws)
    requires exceeded ==> exists j :: 0 <= j < |p.fate| && Crowds(p.q[j], inTransit, l)
    ensures wrap ==> exists j :: 0 <= j < |t.fate| && Wraps(t.q[j], ws)
    ensures exceeded ==> exists j :: 0 <= j < |t.fate| && Crowds(t.q[j], inTransit, l)
  {
    hide Wraps, Crowds;
  }

  lemma NothingMore(q: seq<Outgoing>)
    ensures q + [] == q
  {
  }

  lemma ThrottledIs(x: Outgoing)
    ensures Throttled(x) ==> !x.reliable
  {
  }

  lemma DecidedLonger(p: Pass, f: Fate, l: Link)
    requires |p.fate| < |p.q|
    ensures var t := Decided(p, f, l); t.q == p.q && t.start == p.start && |t.fate| == |p.fate| + 1
  {
  }

  function Swepts(n: nat): (fate: seq<Fate>)
    ensures |fate| == n && forall k :: 0 <= k < n ==> fate[k] == Swept
  {
    seq(n, k => Swept)
  }

  lemma DecidedDropped(p: Pass, l: Link)
    requires |p.fate| < |p.q|
    ensures Decided(p, Dropped, l) == Pass(p.q, p.start, p.fate + [Dropped], p.added)
  {
    assert p.added + [] == p.added;
  }

  /** A command is dropped, and the run behind it is swept. */
  lemma DropsOut(p: Pass, out: seq<Outgoing>, count: nat, ws: seq<Windows>, inTransit: nat, l: Link, n: nat) returns (t: Pass)
    requires Passing(p, out, count, ws, inTransit, l) && |p.fate| < |p.q|
    requires var i := |Staying(p.q, p.fate)|;
      i < |out| && n == RunEnd(out, i, i + 1) && forall k :: i <= k < n ==> !out[k].reliable && out[k].packet
    requires Throttled(p.q[|p.fate|]) && Tick(count) > l.packetThrottle
    ensures Passing(t, out[..|Staying(p.q, p.fate)|] + out[n..], Tick(count), ws, inTransit, l)
    ensures t.q == p.q && t.start == p.start && t.added == p.added && |p.fate| < |t.fate| <= |p.q| && Staying(p.q, t.fate) == Staying(p.q, p.fate)
    ensures p.fate <= t.fate && forall k :: |p.fate| <= k < |t.fate| ==> t.fate[k] != Stays && !p.q[k].reliable
  {
    hide *;
    var i, k := |Staying(p.q, p.fate)|, |p.fate|;
    PassingMeans(p, out, count, ws, inTransit, l);
    RestAfter(Staying(p.q, p.fate), p.q, k, out, n);
    RunShifts(p.q, k, out, i, i + 1);
    SameRest(p.q, k, out, i, n);
    t := DropsRun(p, count, ws, inTransit, l, n - i - 1);
    PassingAre(t, out[..i] + out[n..], Tick(count), ws, inTransit, l);
  }

  lemma DropsRun(p: Pass, count: nat, ws: seq<Windows>, inTransit: nat, l: Link, n: nat) returns (t: Pass)
    requires AllRight(p, ws, inTransit, l) && Sweeps(p.q, p.fate) && p.added == Going(p.q, p.fate, l) && count == Counter(p.q, p.fate, p.start)
    requires var k := |p.fate|; k + 1 + n <= |p.q| && RunEnd(p.q, k, k + 1) == k + 1 + n
    requires forall j :: |p.fate| <= j < |p.fate| + 1 + n ==> !p.q[j].reliable && p.q[j].packet
    requires Throttled(p.q[|p.fate|]) && Tick(count) > l.packetThrottle
    ensures |p.fate| <= |p.q| && t == Pass(p.q, p.start, p.fate + [Dropped] + Swepts(n), p.added)
    ensures AllRight(t, ws, inTransit, l) && Sweeps(p.q, t.fate) && p.added == Going(p.q, t.fate, l)
    ensures Staying(p.q, t.fate) == Staying(p.q, p.fate) && Counter(p.q, t.fate, p.start) == Tick(count)
  {
    hide *;
    OneFate(p, Dropped, l);
    RightlyDropped(p.q, |p.fate|, Tick(count), ws, inTransit, l);
    DecidedRight(p, Dropped, ws, inTransit, l);
    DecidedDropped(p, l);
    t := SweepsAll(Decided(p, Dropped, l), ws, inTransit, l, n);
    SweepsDone(p.q, p.fate, t.fate, n);
  }

  lemma RightlyDropped(q: seq<Outgoing>, k: nat, count: nat, ws: seq<Windows>, inTransit: nat, l: Link)
    requires k < |q| && Throttled(q[k]) && count > l.packetThrottle
    ensures Rightly(q, k, Dropped, count, ws, inTransit, l)
  {
    hide Throttled;
  }

  lemma PassingAre(p: Pass, out: seq<Outgoing>, count: nat, ws: seq<Windows>, inTransit: nat, l: Link)
    requires |p.fate| <= |p.q| && out == Staying(p.q, p.fate) + p.q[|p.fate|..] && p.added == Going(p.q, p.fate, l)
    requires count == Counter(p.q, p.fate, p.start) && Sweeps(p.q, p.fate) && AllRight(p, ws, inTransit, l)
    ensures Passing(p, out, count, ws, inTransit, l)
  {
    hide Staying, Going, Counter, Sweeps, AllRight;
  }

  lemma SameRest(q: seq<Outgoing>, k: nat, out: seq<Outgoing>, i: nat, n: nat)
    requires k <= |q| && i <= n <= |out| && out[i..] == q[k..] && forall j :: i <= j < n ==> !out[j].reliable && out[j].packet
    ensures k + (n - i) <= |q| && forall j :: k <= j < k + (n - i) ==> !q[j].reliable && q[j].packet
  {
    assert |out[i..]| == |q[k..]|;
    forall j | k <= j < k + (n - i) ensures !q[j].reliable && q[j].packet {
      assert q[j] == q[k..][j - k] == out[j - k + i];
    }
  }

  lemma {:induction false} SweepsAll(p: Pass, ws: seq<Windows>, inTransit: nat, l: Link, n: nat) returns (t: Pass)
    requires AllRight(p, ws, inTransit, l) && |p.fate| + n <= |p.q|
    requires forall j :: |p.fate| <= j < |p.fate| + n ==> !p.q[j].reliable && p.q[j].packet
    ensures t == Pass(p.q, p.start, p.fate + Swepts(n), p.added) && AllRight(t, ws, inTransit, l)
    ensures Staying(p.q, t.fate) == Staying(p.q, p.fate) && Going(p.q, t.fate, l) == Going(p.q, p.fate, l)
    ensures Counter(p.q, t.fate, p.start) == Counter(p.q, p.fate, p.start)
    decreases n
  {
    hide Put, Staying, Going, Counter, AllRight, Throttled, Tick, Blocks;
    if n == 0 {
      t := p;
      assert p.fate + Swepts(0) == p.fate;
    } else {
      t := SweepsAll(p, ws, inTransit, l, n - 1);
      OneFate(t, Swept, l);
      DecidedRight(t, Swept, ws, inTransit, l);
      t := Decided(t, Swept, l);
      assert p.added + [] == p.added && p.fate + Swepts(n - 1) + [Swept] == p.fate + Swepts(n);
    }
  }

  lemma SweepsDone(q: seq<Outgoing>, fate: seq<Fate>, more: seq<Fate>, n: nat)
    requires |fate| < |q| && Sweeps(q, fate) && more == fate + [Dropped] + Swepts(n) && |more| <= |q|
    requires RunEnd(q, |fate|, |fate| + 1) == |fate| + 1 + n
    ensures Sweeps(q, more)
  {
    hide RunEnd;
    var k := |fate|;
    forall j | 0 <= j < |more| && more[j] == Dropped ensures RunEnd(q, j, j + 1) <= |more| && SweptUpTo(q, more, j, RunEnd(q, j, j + 1)) {
      if j < k {
        assert fate[j] == Dropped;
      }
    }
    forall j | 0 <= j < |more| && more[j] == Swept ensures exists b :: 0 <= b < j && more[b] == Dropped && j < RunEnd(q, b, b + 1) {
      if j < k {
        assert fate[j] == Swept;
        var b :| 0 <= b < j && fate[b] == Dropped && j < RunEnd(q, b, b + 1);
        assert more[b] == Dropped;
      } else {
        assert more[k] == Dropped;
      }
    }
  }

  /** There is no room for the command in the datagram: it has 32 commands, or fewer than two of the 65 buffers
      are left, or the command with its data would make it longer than the mtu. */
  predicate Full(d: Datagram, x: Outgoing, l: Link) {
    || |d.commands| >= 32 || d.buffers + 1 >= 65 || d.bytes + x.size > l.mtu || (x.packet && d.bytes + x.size + x.length > l.mtu)
  }

  /** The source's test says so, although it compares 16 bits. */
  lemma RoomTest(d: Datagram, x: Outgoing, l: Link, lengths: seq<seq<nat>>)
    requires d.bytes <= l.mtu < SPACE && Formed(x, lengths)
    ensures Full(d, x, l) <==>
      || |d.commands| >= MAXIMUM_PACKET_COMMANDS || d.buffers + 1 >= BUFFER_MAXIMUM || l.mtu - d.bytes < x.size
      || (x.packet && (l.mtu - d.bytes) % SPACE < (x.size + x.length) % SPACE)
  {
  }

  /** The bytes of the commands: 6 before a reliable packet, 8 before an unreliable or unsequenced one, 24
      before a fragment. */
  lemma SizesAre(p: Packet, c: nat, f: nat, length: nat)
    requires p.Ok() && f < p.Pieces()
    ensures PieceOf(p, c, f).size == if p.Count() > 0 then 24 else if p.Reliable() then 6 else 8
    ensures UnsequencedCommand(c, length).size == 8
  {
  }

  /** A fragment as enet_peer_send cuts it, mtu - 28 bytes behind a command of 24, fills an empty datagram, which has
      a header of 4 bytes, and finds room in it. */
  lemma FragmentFillsDatagram(p: Packet, c: nat, f: nat, l: Link, d: Datagram)
    requires p.Ok() && p.Fragmented() && f < p.Count() == p.Pieces() && 28 < l.mtu && p.size == l.mtu - 28
    requires d == Datagram([], 1, 4)
    ensures !Full(d, PieceOf(p, c, f), l) && With(d, PieceOf(p, c, f)).bytes <= l.mtu
    ensures f + 1 < p.Count() ==> With(d, PieceOf(p, c, f)).bytes == l.mtu
  {
    p.PieceBounds(f);
    if f + 1 < p.Count() {
      p.PieceBounds(f + 1);
    }
  }

  /** The datagram keeps within the size that the peers agreed on, and within the host's arrays. */
  predicate Within(d: Datagram, room: Datagram, l: Link) {
    d.bytes <= l.mtu && |d.commands| <= Max(|room.commands|, 32) && d.buffers <= Max(room.buffers, 65)
  }

  lemma Limits(d: Datagram, room: Datagram, l: Link)
    requires Within(d, room, l)
    ensures d.bytes <= l.mtu && |d.commands| <= Max(|room.commands|, 32) && d.buffers <= Max(room.buffers, 65)
  {
  }

  lemma NoRoom(d: Datagram, x: Outgoing, l: Link)
    ensures Full(d, x, l) ==>
      || |d.commands| >= 32 || d.buffers + 1 >= 65 || d.bytes + x.size > l.mtu
      || (x.packet && d.bytes + x.size + x.length > l.mtu)
  {
  }

  lemma RoomIsWithin(room: Datagram, l: Link)
    requires room.bytes <= l.mtu
    ensures Within(room, room, l)
  {
  }

  /** What a pass found: the datagram with its room, the sent commands and their data, the numbers given out
      and sent on each channel, and those in use. */
  datatype Was = Was(room: Datagram, kept: seq<Outgoing>, inTransit: nat, queued: seq<nat>, last: seq<nat>, before: seq<set<nat>>)

  /** One more command, with a second buffer for its data if it has any. */
  function With(d: Datagram, x: Outgoing): Datagram {
    Datagram(d.commands + [x], d.buffers + if x.packet then 2 else 1, d.bytes + x.size + x.length)
  }

  /** The datagram with all that was added to it. */
  function Filled(room: Datagram, added: seq<Outgoing>): (d: Datagram)
    ensures d.commands == room.commands + added
  {
    if added == [] then room else With(Filled(room, added[..|added| - 1]), added[|added| - 1])
  }

  lemma FilledOn(room: Datagram, added: seq<Outgoing>, x: Outgoing)
    ensures Filled(room, added + [x]) == With(Filled(room, added), x)
  {
    hide With;
    assert (added + [x])[..|added|] == added;
  }

  lemma FitsIn(d: Datagram, room: Datagram, x: Outgoing, l: Link, lengths: seq<seq<nat>>)
    requires Within(d, room, l) && l.mtu < SPACE && Formed(x, lengths) && !Full(d, x, l)
    ensures Within(With(d, Put(x, l)), room, l)
  {
  }

  // ---- the state of a pass

  /** What a pass changes of a sender, and what it reads. */
  datatype View = View(windows: seq<Windows>, queued: seq<nat>, last: seq<nat>, lengths: seq<seq<nat>>, outgoing: seq<Outgoing>,
                       sent: seq<Outgoing>, inTransit: nat, counter: nat)

  ghost function InUseOf(v: View, c: nat): multiset<nat> { Using(v.sent, c) + Using(v.outgoing, c) }

  ghost predicate SentSoFar(w: Was, v: View, l: Link) {
    && |w.before| == |w.last| == |v.windows| == |v.last| == |v.lengths|
    && forall c :: 0 <= c < |v.windows| ==> SentSince(v.lengths[c], WindowLimit(l), w.before[c], w.last[c], InUseOf(v, c), v.last[c])
  }

  ghost predicate Kept(p: Pass, v: View, l: Link, windowWrap: bool, windowExceeded: bool) {
    && (windowWrap ==> exists j :: 0 <= j < |p.fate| <= |p.q| && Wraps(p.q[j], v.windows))
    && (windowExceeded ==> exists j :: 0 <= j < |p.fate| <= |p.q| && Crowds(p.q[j], v.inTransit, l))
  }

  /** d is the datagram so far, and position i of the list is the next to be looked at. */
  ghost predicate Underway(p: Pass, w: Was, v: View, i: nat, d: Datagram, windowWrap: bool, windowExceeded: bool, l: Link) {
    && |p.fate| <= |p.q| && i == |Staying(p.q, p.fate)| && v.queued == w.queued
    && Passing(p, v.outgoing, v.counter, v.windows, v.inTransit, l)
    && (windowWrap || windowExceeded <==> i > 0) && Kept(p, v, l, windowWrap, windowExceeded)
    && Holding(p.q, p.fate, v.windows, v.inTransit, l)
    && d == Filled(w.room, p.added) && v.sent == w.kept + ReliableOnly(p.added)
    && Within(d, w.room, l) && v.inTransit <= Max(w.inTransit, WindowLimit(l)) && SentSoFar(w, v, l)
  }

  lemma UnderwayMeans(p: Pass, w: Was, v: View, i: nat, d: Datagram, windowWrap: bool, windowExceeded: bool, l: Link)
    requires Underway(p, w, v, i, d, windowWrap, windowExceeded, l)
    ensures |p.fate| <= |p.q| && i == |Staying(p.q, p.fate)| <= |v.outgoing| && (i < |v.outgoing| <==> |p.fate| < |p.q|)
    ensures i < |v.outgoing| ==> v.outgoing[i] == p.q[|p.fate|]
    ensures v.outgoing == Staying(p.q, p.fate) + p.q[|p.fate|..] && p.added == Going(p.q, p.fate, l)
    ensures v.counter == Counter(p.q, p.fate, p.start) && Sweeps(p.q, p.fate) && AllRight(p, v.windows, v.inTransit, l)
    ensures d == Filled(w.room, p.added) && v.sent == w.kept + ReliableOnly(p.added) && v.queued == w.queued
    ensures Within(d, w.room, l) && v.inTransit <= Max(w.inTransit, WindowLimit(l)) && SentSoFar(w, v, l)
    ensures (windowWrap || windowExceeded <==> i > 0) && Passing(p, v.outgoing, v.counter, v.windows, v.inTransit, l)
    ensures Holding(p.q, p.fate, v.windows, v.inTransit, l)
  {
    hide Sweeps, AllRight, Staying, Going, Counter, Passing, SentSoFar, ReliableOnly, WindowLimit, Within, Kept, Filled, Holding;
    PassingMeans(p, v.outgoing, v.counter, v.windows, v.inTransit, l);
  }

  lemma Begins(v: View, room: Datagram, l: Link) returns (p: Pass, w: Was)
    requires room.bytes <= l.mtu && |v.windows| == |v.last| == |v.lengths|
    ensures p == Pass(v.outgoing, v.counter, [], []) && Underway(p, w, v, 0, room, false, false, l)
    ensures w.room == room && w.kept == v.sent && w.inTransit == v.inTransit && w.queued == v.queued && w.last == v.last
    ensures |w.before| == |v.windows| && forall c :: 0 <= c < |v.windows| ==> w.before[c] == Elements(InUseOf(v, c))
  {
    hide SentSince, Elements, WindowLimit, Passing, InUseOf, Sweeps, AllRight, With, Holding;
    HoldingNothing(v.outgoing, v.windows, v.inTransit, l);
    p := Pass(v.outgoing, v.counter, [], []);
    w := Was(room, v.sent, v.inTransit, v.queued, v.last, seq(|v.windows|, c requires 0 <= c < |v.windows| => Elements(InUseOf(v, c))));
    NoneAdded(v.sent);
    RoomIsWithin(room, l);
    PassingStarts(v.outgoing, v.counter, v.windows, v.inTransit, l);
    forall c | 0 <= c < |v.windows| {
      SentNothing(v.lengths[c], WindowLimit(l), InUseOf(v, c), v.last[c]);
    }
  }

  /** The command at position i stays. */
  lemma PassesOver(p: Pass, w: Was, v: View, i: nat, d: Datagram, windowWrap: bool, windowExceeded: bool, wrap: bool, exceeded: bool, l: Link)
    requires Underway(p, w, v, i, d, windowWrap, windowExceeded, l) && i < |v.outgoing| && Formed(v.outgoing[i], v.lengths)
    requires var x := v.outgoing[i];
      && wrap == (windowWrap || Wraps(x, v.windows))
      && exceeded == (windowExceeded || (Crowds(x, v.inTransit, l) && !(x.channel < |v.windows| && wrap)))
      && x.reliable && ((x.channel < |v.windows| && wrap) || (x.packet && exceeded))
    ensures |p.fate| < |p.q| && Underway(Decided(p, Stays, l), w, v, i + 1, d, wrap, exceeded, l)
  {
    hide Sweeps, AllRight, Staying, Going, Counter, Passing, SentSoFar, ReliableOnly, Wraps, Crowds, WindowLimit, Within, Filled, Holding, Formed;
    PassingMeans(p, v.outgoing, v.counter, v.windows, v.inTransit, l);
    var k, x := |p.fate|, v.outgoing[i];
    assert p.q[k] == x;
    SoFarLengths(w, v, l);
    HasPacket(x, v.lengths);
    HoldingStays(p.q, p.fate, v.windows, v.inTransit, l);
    if x.channel < |v.windows| && wrap {
      var j :| 0 <= j <= k && Wraps(p.q[j], v.windows);
      StaysBehind(p, v.outgoing, v.counter, v.windows, v.inTransit, l, j);
    } else {
      var j :| 0 <= j <= k && Crowds(p.q[j], v.inTransit, l);
      StaysBehind(p, v.outgoing, v.counter, v.windows, v.inTransit, l, j);
    }
    var t := Decided(p, Stays, l);
    assert p.added + [] == p.added;
    if wrap {
      var j :| 0 <= j <= k && Wraps(p.q[j], v.windows);
      assert Wraps(t.q[j], v.windows);
    }
    if exceeded {
      var j :| 0 <= j <= k && Crowds(p.q[j], v.inTransit, l);
      assert Crowds(t.q[j], v.inTransit, l);
    }
  }

  /** What was in use before, and what a sending added. */
  ghost predicate SentOn(v: View, t: View, x: Outgoing) {
    && |t.windows| == |v.windows| && |t.last| == |v.last| && t.lengths == v.lengths
    && (forall c :: 0 <= c < |t.windows| && c < |v.last| && c < |t.last| ==>
      SentFor(x.reliable && x.attempts == 0 && x.channel == c, InUseOf(v, c), v.last[c], InUseOf(t, c), t.last[c]))
    && (x.reliable && x.attempts == 0 && x.channel < |t.windows| && x.channel < |t.lengths| ==>
      InTransit(t.lengths[x.channel], 0, Elements(InUseOf(t, x.channel))) <= t.inTransit)
  }

  lemma CounterAside(v: View, ticked: View, t: View, x: Outgoing)
    requires SentOn(ticked, t, x) && ticked == v.(counter := ticked.counter)
    ensures SentOn(v, t, x)
  {
    hide SentFor, InTransit, Elements;
  }

  /** The command at position i of the list was sent or, being unreliable, dropped for the throttle's sake,
      with the commands up to position n. */
  ghost predicate Handled(v: View, t: View, i: nat, l: Link, sent: bool, broken: bool, n: nat)
    requires i < |v.outgoing|
  {
    var q, x := v.outgoing, v.outgoing[i];
    && t.queued == v.queued && t.inTransit == v.inTransit + (if x.reliable then x.length else 0)
    && t.sent == v.sent + (if x.reliable then [Sent(x, l)] else [])
    && (!x.reliable || x.channel >= |v.windows| ==> t.windows == v.windows)
    && t.counter == (if Throttled(x) then Tick(v.counter) else v.counter)
    && (sent <==> !(Throttled(x) && t.counter > l.packetThrottle))
    && (broken <==> !sent && Harms(q, i)) && (!broken ==> SentOn(v, t, x))
    && if sent then t.outgoing == RemoveAt(q, i) else
      && DropEnds(q, i, n) && t.outgoing == q[..i] + q[n..]
      && (!broken ==> n == RunEnd(q, i, i + 1))
  }

  lemma SentOnSoFar(w: Was, v: View, t: View, x: Outgoing, l: Link)
    requires SentSoFar(w, v, l) && SentOn(v, t, x)
    requires x.reliable && x.channel < |v.windows| ==> t.inTransit <= WindowLimit(l)
    ensures SentSoFar(w, t, l)
  {
    hide SentSince, SentFor, WindowLimit, InUseOf, Elements, InTransit;
    forall c | 0 <= c < |t.windows| ensures SentSince(t.lengths[c], WindowLimit(l), w.before[c], w.last[c], InUseOf(t, c), t.last[c]) {
      StepOrNot(t.lengths[c], WindowLimit(l), w.before[c], w.last[c], x.reliable && x.attempts == 0 && x.channel == c,
                InUseOf(v, c), v.last[c], InUseOf(t, c), t.last[c]);
    }
  }

  /** More was decided of the same pass. */
  predicate Further(p: Pass, p': Pass) { p'.q == p.q && p'.start == p.start && |p.fate| < |p'.fate| <= |p.q| }

  /** The command x at position i went. */
  lemma Went(p: Pass, w: Was, v: View, t: View, i: nat, d: Datagram, windowWrap: bool, windowExceeded: bool, l: Link, x: Outgoing, n: nat)
    returns (p': Pass)
    requires Underway(p, w, v, i, d, windowWrap, windowExceeded, l) && i < |v.outgoing| && x == v.outgoing[i]
    requires !Full(d, x, l) && l.mtu < SPACE && Formed(x, v.lengths) && Handled(v, t, i, l, true, false, n)
    requires x.reliable && x.channel < |v.windows| ==> !windowWrap && !windowExceeded
    requires x.reliable ==> (!x.packet && x.length == 0) || v.inTransit + x.length <= WindowLimit(l)
    ensures Underway(p', w, t, i, With(d, Put(x, l)), windowWrap, windowExceeded, l) && Further(p, p')
  {
    hide Sweeps, AllRight, Staying, Going, Counter, Passing, SentSoFar, SentOn, ReliableOnly, Wraps, Crowds, WindowLimit, Within,
      Throttled, Tick, Put, Sent, With, RemoveAt, Full, Formed, Filled, Holding;
    PassingMeans(p, v.outgoing, v.counter, v.windows, v.inTransit, l);
    FitsIn(d, w.room, x, l, v.lengths);
    HasPacket(x, v.lengths);
    SoFarLengths(w, v, l);
    NoData(x, v.lengths);
    HoldingGoes(p.q, p.fate, Goes, v.windows, v.inTransit, l, t.windows, t.inTransit);
    SentOnSoFar(w, v, t, x, l);
    OneAdded(w.kept, p.added, Put(x, l));
    FilledOn(w.room, p.added, Put(x, l));
    SentIs(x, l);
    GoesOut(p, v.outgoing, v.counter, v.windows, v.inTransit, l, t.windows, t.inTransit);
    FlagsStay(p, Goes, v.windows, v.inTransit, l, t.windows, t.inTransit, windowWrap, windowExceeded);
    p' := Decided(p, Goes, l);
  }

  lemma NoData(x: Outgoing, lengths: seq<seq<nat>>)
    requires Formed(x, lengths)
    ensures !x.packet ==> x.length == 0
  {
  }

  lemma SoFarLengths(w: Was, v: View, l: Link)
    requires SentSoFar(w, v, l)
    ensures |v.lengths| == |v.windows|
  {
  }

  /** The command x at position i was dropped, and nothing with it that should not be. */
  lemma WasDropped(p: Pass, w: Was, v: View, t: View, i: nat, d: Datagram, windowWrap: bool, windowExceeded: bool, l: Link, x: Outgoing, n: nat)
    returns (p': Pass)
    requires Underway(p, w, v, i, d, windowWrap, windowExceeded, l) && i < |v.outgoing| && x == v.outgoing[i]
    requires Handled(v, t, i, l, false, false, n)
    ensures Underway(p', w, t, i, d, windowWrap, windowExceeded, l) && Further(p, p')
  {
    hide *;
    UnderwayMeans(p, w, v, i, d, windowWrap, windowExceeded, l);
    DroppedAside(w, v, t, i, x, l, n);
    p' := DropsFurther(p, v, t, l, n);
    StillUnderway(p, p', w, v, t, i, d, windowWrap, windowExceeded, l);
    FurtherIs(p, p');
  }

  lemma DroppedAside(w: Was, v: View, t: View, i: nat, x: Outgoing, l: Link, n: nat)
    requires SentSoFar(w, v, l) && i < |v.outgoing| && x == v.outgoing[i] && Handled(v, t, i, l, false, false, n)
    ensures SentSoFar(w, t, l) && t.queued == v.queued && t.inTransit == v.inTransit && t.sent == v.sent && t.windows == v.windows
  {
    hide *;
    HandledDropped(v, t, i, l, n);
    SentOnSoFar(w, v, t, x, l);
  }

  lemma DropsFurther(p: Pass, v: View, t: View, l: Link, n: nat) returns (p': Pass)
    requires Passing(p, v.outgoing, v.counter, v.windows, v.inTransit, l) && |p.fate| < |p.q| && Holding(p.q, p.fate, v.windows, v.inTransit, l)
    requires var i := |Staying(p.q, p.fate)|;
      i < |v.outgoing| && v.outgoing[i] == p.q[|p.fate|] && Handled(v, t, i, l, false, false, n)
    ensures p'.q == p.q && p'.start == p.start && p'.added == p.added && |p.fate| < |p'.fate| <= |p.q|
    ensures Staying(p.q, p'.fate) == Staying(p.q, p.fate) && Holding(p.q, p'.fate, v.windows, v.inTransit, l)
    ensures Passing(p', t.outgoing, t.counter, t.windows, t.inTransit, l)
  {
    hide *;
    HandledDropped(v, t, |Staying(p.q, p.fate)|, l, n);
    p' := DropsOut(p, v.outgoing, v.counter, v.windows, v.inTransit, l, n);
    HoldingAside(p.q, p.fate, p'.fate, v.windows, v.inTransit, l);
  }

  lemma HandledDropped(v: View, t: View, i: nat, l: Link, n: nat)
    requires i < |v.outgoing| && Handled(v, t, i, l, false, false, n)
    ensures var q := v.outgoing;
      && Throttled(q[i]) && !q[i].reliable && t.counter == Tick(v.counter) > l.packetThrottle && n == RunEnd(q, i, i + 1)
      && t.outgoing == q[..i] + q[n..] && SentOn(v, t, q[i]) && forall k :: i <= k < n ==> !q[k].reliable && q[k].packet
    ensures t.queued == v.queued && t.inTransit == v.inTransit && t.sent == v.sent && t.windows == v.windows
  {
    hide RunEnd, Tick, Sent, RemoveAt, SentOn;
    NothingMore(v.sent);
  }

  lemma FurtherIs(p: Pass, p': Pass)
    requires p'.q == p.q && p'.start == p.start && |p.fate| < |p'.fate| <= |p.q|
    ensures Further(p, p')
  {
  }

  /** The pass goes on with the same command position, the windows and the data in flight being as before. */
  lemma StillUnderway(p: Pass, p': Pass, w: Was, v: View, t: View, i: nat, d: Datagram, windowWrap: bool, windowExceeded: bool, l: Link)
    requires Underway(p, w, v, i, d, windowWrap, windowExceeded, l)
    requires p'.q == p.q && p'.added == p.added && |p.fate| <= |p'.fate| <= |p.q| && Staying(p.q, p'.fate) == Staying(p.q, p.fate)
    requires Passing(p', t.outgoing, t.counter, t.windows, t.inTransit, l) && SentSoFar(w, t, l)
    requires Holding(p.q, p'.fate, v.windows, v.inTransit, l)
    requires t.queued == v.queued && t.inTransit == v.inTransit && t.sent == v.sent && t.windows == v.windows
    ensures Underway(p', w, t, i, d, windowWrap, windowExceeded, l)
  {
    hide Staying, Going, Counter, Passing, SentSoFar, ReliableOnly, Wraps, Crowds, WindowLimit, Within, Sweeps, AllRight, Filled, Holding;
    PassingMeans(p', t.outgoing, t.counter, t.windows, t.inTransit, l);
    FlagsLast(p, p', v.windows, v.inTransit, l, windowWrap, windowExceeded);
  }

  /** What a pass leaves when a drop takes what it should not: the list without what was dropped, up to the
      end of the run or to a command without a packet. */
  ghost predicate Broken(p: Pass, w: Was, v: View, d: Datagram, n: nat, l: Link) {
    var k := |p.fate|;
    && k < |p.q| && Throttled(p.q[k]) && Tick(Counter(p.q, p.fate, p.start)) > l.packetThrottle && Harms(p.q, k)
    && DropEnds(p.q, k, n)
    && v.outgoing == Staying(p.q, p.fate) + p.q[n..] && p.added == Going(p.q, p.fate, l) && v.queued == w.queued
    && d == Filled(w.room, p.added) && v.sent == w.kept + ReliableOnly(p.added)
    && Sweeps(p.q, p.fate) && AllRight(p, v.windows, v.inTransit, l) && Holding(p.q, p.fate, v.windows, v.inTransit, l)
  }

  lemma BrokenMeans(p: Pass, w: Was, v: View, d: Datagram, n: nat, l: Link)
    requires Broken(p, w, v, d, n, l)
    ensures |p.fate| <= |p.q| && Sweeps(p.q, p.fate) && AllRight(p, v.windows, v.inTransit, l)
    ensures Holding(p.q, p.fate, v.windows, v.inTransit, l)
    ensures p.added == Going(p.q, p.fate, l) && d == Filled(w.room, p.added)
    ensures v.sent == w.kept + ReliableOnly(p.added) && v.queued == w.queued
  {
    hide Filled, ReliableOnly, Going, Sweeps, AllRight, Holding;
  }

  /** The command x at position i was dropped, and something with it that should not be. */
  lemma WasBroken(p: Pass, w: Was, v: View, t: View, i: nat, d: Datagram, windowWrap: bool, windowExceeded: bool, l: Link, sent: bool, n: nat)
    returns (m: nat)
    requires Underway(p, w, v, i, d, windowWrap, windowExceeded, l) && i < |v.outgoing| && Handled(v, t, i, l, sent, true, n)
    ensures Broken(p, w, t, d, m, l)
  {
    hide *;
    UnderwayMeans(p, w, v, i, d, windowWrap, windowExceeded, l);
    m := DropsWrong(p, v, t, i, l, sent, n);
    BrokenAre(p, w, t, d, m, l);
  }

  lemma DropsWrong(p: Pass, v: View, t: View, i: nat, l: Link, sent: bool, n: nat) returns (m: nat)
    requires i < |v.outgoing| && Handled(v, t, i, l, sent, true, n)
    requires |p.fate| < |p.q| && i == |Staying(p.q, p.fate)| && v.outgoing == Staying(p.q, p.fate) + p.q[|p.fate|..]
    ensures var k := |p.fate|;
      && Throttled(p.q[k]) && Tick(v.counter) > l.packetThrottle && Harms(p.q, k)
      && DropEnds(p.q, k, m) && t.outgoing == Staying(p.q, p.fate) + p.q[m..]
    ensures t.queued == v.queued && t.inTransit == v.inTransit && t.sent == v.sent && t.windows == v.windows
  {
    hide *;
    HandledBroken(v, t, i, l, sent, n);
    DropLies(v.outgoing, i, n);
    m := n - i + |p.fate|;
    BrokenAt(p, v.outgoing, i, n, t.outgoing);
  }

  lemma BrokenAt(p: Pass, out: seq<Outgoing>, i: nat, n: nat, out': seq<Outgoing>)
    requires |p.fate| < |p.q| && i == |Staying(p.q, p.fate)| && out == Staying(p.q, p.fate) + p.q[|p.fate|..]
    requires Harms(out, i) && DropEnds(out, i, n) && out' == out[..i] + out[n..]
    ensures var k, m := |p.fate|, n - i + |p.fate|;
      && Harms(p.q, k) && DropEnds(p.q, k, m)
      && out' == Staying(p.q, p.fate) + p.q[m..]
  {
    hide *;
    DropLies(out, i, n);
    RestAfter(Staying(p.q, p.fate), p.q, |p.fate|, out, n);
    HarmsShifts(p.q, |p.fate|, out, i);
    DropShifts(p.q, |p.fate|, out, i, n);
  }

  lemma DropLies(q: seq<Outgoing>, i: nat, n: nat)
    requires i < |q| && DropEnds(q, i, n)
    ensures i < n <= |q|
  {
  }

  lemma DropShifts(q: seq<Outgoing>, k: nat, out: seq<Outgoing>, i: nat, n: nat)
    requires k < |q| && i < |out| && out[i..] == q[k..] && DropEnds(out, i, n)
    ensures DropEnds(q, k, n - i + k)
  {
    hide RunEnd;
    RunShifts(q, k, out, i, i + 1);
    assert forall j :: k <= j < |q| ==> q[j] == q[k..][j - k] == out[i..][j - k] == out[j - k + i];
  }

  lemma BrokenAre(p: Pass, w: Was, v: View, d: Datagram, n: nat, l: Link)
    requires var k := |p.fate|;
      && k < |p.q| && Throttled(p.q[k]) && Tick(Counter(p.q, p.fate, p.start)) > l.packetThrottle && Harms(p.q, k)
      && DropEnds(p.q, k, n)
    requires v.outgoing == Staying(p.q, p.fate) + p.q[n..] && p.added == Going(p.q, p.fate, l) && v.queued == w.queued
    requires d == Filled(w.room, p.added) && v.sent == w.kept + ReliableOnly(p.added)
    requires Sweeps(p.q, p.fate) && AllRight(p, v.windows, v.inTransit, l) && Holding(p.q, p.fate, v.windows, v.inTransit, l)
    ensures Broken(p, w, v, d, n, l)
  {
    hide Holding, Sweeps, AllRight, Staying, Going, Counter, ReliableOnly, Tick, RunEnd, Harms, Throttled, Filled;
  }

  lemma HandledBroken(v: View, t: View, i: nat, l: Link, sent: bool, n: nat)
    requires i < |v.outgoing| && Handled(v, t, i, l, sent, true, n)
    ensures var q := v.outgoing;
      && Throttled(q[i]) && Tick(v.counter) > l.packetThrottle && Harms(q, i) && DropEnds(q, i, n)
      && t.outgoing == q[..i] + q[n..]
    ensures t.queued == v.queued && t.inTransit == v.inTransit && t.sent == v.sent && t.windows == v.windows
  {
    hide Harms, RunEnd, Throttled, Tick, Sent, RemoveAt, SentOn;
    ThrottledIs(v.outgoing[i]);
    NothingMore(v.sent);
  }

  lemma RestAfter(front: seq<Outgoing>, q: seq<Outgoing>, k: nat, out: seq<Outgoing>, n: nat)
    requires k <= |q| && out == front + q[k..] && |front| <= n <= |out|
    ensures out[|front|..] == q[k..] && out[..|front|] + out[n..] == front + q[n - |front| + k..]
    ensures n < |out| ==> out[n] == q[n - |front| + k]
  {
  }

  predicate Matches(x: Outgoing, n: uint16, channel: nat) {
    OnChannel(x, channel) && x.attempts > 0 && Num(x.number) == n
  }

  /** Neither the sent commands nor the list up to the first command never sent holds the number. */
  lemma NothingMatches(out: seq<Outgoing>, sent: seq<Outgoing>, j: nat, n: uint16, channel: nat)
    requires SentFirst(out) && j <= |out| && (j < |out| ==> out[j].reliable && out[j].attempts == 0)
    requires forall k :: 0 <= k < j ==> !Matches(out[k], n, channel)
    requires forall k :: 0 <= k < |sent| ==> !(Num(sent[k].number) == n && sent[k].channel == channel)
    ensures forall i :: i in Using(sent, channel) + Using(out, channel) ==> Num(i) != n
  {
    hide Using, Num;
    forall i | i in Using(sent, channel) + Using(out, channel) ensures Num(i) != n {
      if i in Using(sent, channel) {
        UsingHas(sent, channel, i);
      } else {
        UsingHas(out, channel, i);
        var k :| 0 <= k < |out| && i in Uses(out[k], channel);
        assert !Matches(out[k], n, channel);
      }
    }
  }

  /** A command in use leaves whichever list it is in. */
  lemma Removes(out: seq<Outgoing>, sent: seq<Outgoing>, i: nat, wasSent: bool, c: nat)
    requires if wasSent then i < |sent| && sent[i].attempts > 0 else i < |out| && out[i].attempts > 0
    ensures var x := if wasSent then sent[i] else out[i];
      var sent', out' := if wasSent then RemoveAt(sent, i) else sent, if wasSent then out else RemoveAt(out, i);
      && Using(sent', c) + Using(out', c) == Using(sent, c) + Using(out, c) - Uses(x, c)
      && (!OnChannel(x, c) ==> Using(sent', c) + Using(out', c) == Using(sent, c) + Using(out, c))
      && Uses(x, c) <= Using(sent, c) + Using(out, c) && Unsent(out', c) == Unsent(out, c)
  {
    hide Using, Unsent, RemoveAt;
    if wasSent {
      Remove(sent, i, c);
    } else {
      Remove(out, i, c);
      assert Waits(out[i], c) == [];
    }
  }

  lemma ListsRemove(out: seq<Outgoing>, sent: seq<Outgoing>, i: nat, wasSent: bool, lengths: seq<seq<nat>>)
    requires AllFormed(out, lengths) && AllFormed(sent, lengths) && AllSent(sent) && SentFirst(out)
    requires if wasSent then i < |sent| else i < |out|
    ensures wasSent ==> AllFormed(RemoveAt(sent, i), lengths) && AllSent(RemoveAt(sent, i))
    ensures wasSent ==> Total(sent) == Total(RemoveAt(sent, i)) + sent[i].length && (!sent[i].packet ==> sent[i].length == 0)
    ensures !wasSent ==> AllFormed(RemoveAt(out, i), lengths) && SentFirst(RemoveAt(out, i))
  {
    hide SentFirst, Total, Using, Unsent, Uses, Waits, Formed, AllFormed, AllSent, RemoveAt;
    if wasSent {
      Remove(sent, i, 0);
      LengthOf(sent, lengths, i);
      FormedRemoved(sent, i, lengths);
      SentRemoved(sent, i);
    } else {
      SentFirstRemoved(out, i);
      FormedRemoved(out, i, lengths);
    }
  }

  lemma FormedRemoved(q: seq<Outgoing>, i: nat, lengths: seq<seq<nat>>)
    requires AllFormed(q, lengths) && i < |q|
    ensures AllFormed(RemoveAt(q, i), lengths)
  {
    hide Formed;
  }

  lemma SentRemoved(q: seq<Outgoing>, i: nat)
    requires AllSent(q) && i < |q|
    ensures AllSent(RemoveAt(q, i))
  {
  }

  // ---- timeouts

  const TIME_OVERFLOW := 86400000

  /** ENET_TIME_LESS and ENET_TIME_DIFFERENCE on 32-bit times */
  predicate TimeLess(a: uint32, b: uint32) { (a - b) % WORD >= TIME_OVERFLOW }

  function TimeDifference(a: uint32, b: uint32): uint32 {
    if (a - b) % WORD >= TIME_OVERFLOW then (b - a) % WORD else (a - b) % WORD
  }

  /** The clock wraps around, but two times less than a day apart are told apart, whatever they are. */
  lemma TimesNear(t: uint32, d: nat)
    requires d < 24 * 60 * 60 * 1000
    ensures var u := (t + d) % 0x1_0000_0000; TimeDifference(t, u) == TimeDifference(u, t) == d
    ensures var u := (t + d) % 0x1_0000_0000; (TimeLess(t, u) <==> d > 0) && !TimeLess(u, t)
  {
  }

  /** A command sent less than a day ago is timed out just when as long has passed as its timeout, which is
      twice as long the next time. */
  lemma TimeoutsAre(x: Outgoing, d: nat)
    requires d < 24 * 60 * 60 * 1000
    ensures TimedOut(x, (x.sentTime + d) % 0x1_0000_0000) <==> d >= x.timeout
    ensures Resent(x) == x.(timeout := 2 * x.timeout % 0x1_0000_0000)
  {
    TimesNear(x.sentTime, d);
  }

  predicate TimedOut(x: Outgoing, now: uint32) { TimeDifference(now, x.sentTime) >= x.timeout }

  function Resent(x: Outgoing): Outgoing { x.(timeout := x.timeout * 2 % WORD) }

  /** The commands that stay, and those that go back to the front of the other list. */
  function Waiting(q: seq<Outgoing>, now: uint32): seq<Outgoing> {
    if q == [] then [] else Waiting(q[..|q| - 1], now) + if TimedOut(q[|q| - 1], now) then [] else [q[|q| - 1]]
  }

  function Expired(q: seq<Outgoing>, now: uint32): seq<Outgoing> {
    if q == [] then [] else Expired(q[..|q| - 1], now) + if TimedOut(q[|q| - 1], now) then [Resent(q[|q| - 1])] else []
  }

  lemma OneMore(q: seq<Outgoing>, k: nat, now: uint32)
    requires k < |q|
    ensures Waiting(q[..k + 1], now) == Waiting(q[..k], now) + if TimedOut(q[k], now) then [] else [q[k]]
    ensures Expired(q[..k + 1], now) == Expired(q[..k], now) + if TimedOut(q[k], now) then [Resent(q[k])] else []
  {
    assert q[..k + 1][..k] == q[..k];
  }

  /** earliestTimeout after the commands of q have been looked at. */
  function Earliest(q: seq<Outgoing>, now: uint32, start: uint32): uint32 {
    if q == [] then start
    else
      var x, e := q[|q| - 1], Earliest(q[..|q| - 1], now, start);
      if TimedOut(x, now) && (e == 0 || TimeLess(x.sentTime, e)) then x.sentTime else e
  }

  /** The command at position k is in time, or its delay is reason enough to give the peer up. */
  predicate GivesUp(q: seq<Outgoing>, k: nat, now: uint32, start: uint32, timeoutMinimum: nat, timeoutMaximum: nat)
    requires k < |q|
  {
    var e := Earliest(q[..k + 1], now, start);
    && TimedOut(q[k], now) && e != 0
    && (TimeDifference(now, e) >= timeoutMaximum || (q[k].timeout >= q[k].limit && TimeDifference(now, e) >= timeoutMinimum))
  }

  /** What the walk finds at position k. */
  lemma GivesUpIs(q: seq<Outgoing>, k: nat, now: uint32, start: uint32, e: uint32, timeoutMinimum: nat, timeoutMaximum: nat)
    requires k < |q| && e == Earliest(q[..k + 1], now, start)
    ensures GivesUp(q, k, now, start, timeoutMinimum, timeoutMaximum) <==>
      && TimeDifference(now, q[k].sentTime) >= q[k].timeout && e != 0
      && (TimeDifference(now, e) >= timeoutMaximum || (q[k].timeout >= q[k].limit && TimeDifference(now, e) >= timeoutMinimum))
  {
    hide TimeDifference, Earliest;
  }

  lemma OneLater(q: seq<Outgoing>, k: nat, now: uint32, start: uint32)
    requires k < |q|
    ensures var x, e := q[k], Earliest(q[..k], now, start);
      Earliest(q[..k + 1], now, start) == if TimedOut(x, now) && (e == 0 || TimeLess(x.sentTime, e)) then x.sentTime else e
  {
    hide TimedOut, TimeLess;
    assert q[..k + 1][..k] == q[..k];
  }

  function InsertAt(q: seq<Outgoing>, i: nat, x: Outgoing): seq<Outgoing>
    requires i <= |q|
  {
    q[..i] + [x] + q[i..]
  }

  /** A sent command goes back to the list of commands to send. */
  lemma MovesBack(out: seq<Outgoing>, sent: seq<Outgoing>, i: nat, j: nat, x: Outgoing, c: nat)
    requires i < |sent| && j <= |out| && Uses(x, c) == Uses(sent[i], c) && sent[i].attempts > 0 && x.attempts > 0
    ensures Using(RemoveAt(sent, i), c) + Using(InsertAt(out, j, x), c) == Using(sent, c) + Using(out, c)
    ensures Unsent(InsertAt(out, j, x), c) == Unsent(out, c)
  {
    hide Using, Unsent, RemoveAt, InsertAt, Uses;
    Remove(sent, i, c);
    Inserted(out, j, x, c);
  }

  lemma Inserted(out: seq<Outgoing>, j: nat, x: Outgoing, c: nat)
    requires j <= |out| && x.attempts > 0
    ensures Using(InsertAt(out, j, x), c) == Using(out, c) + Uses(x, c) && Unsent(InsertAt(out, j, x), c) == Unsent(out, c)
  {
    hide Using, Unsent, Uses, Total;
    Concat(out[..j], out[j..], c);
    Concat(out[..j], [x], c);
    Concat(out[..j] + [x], out[j..], c);
    One(x, c);
    assert out == out[..j] + out[j..];
    assert Waits(x, c) == [];
  }

  lemma ListsMoveBack(out: seq<Outgoing>, sent: seq<Outgoing>, i: nat, j: nat, x: Outgoing, lengths: seq<seq<nat>>)
    requires AllFormed(out, lengths) && AllFormed(sent, lengths) && AllSent(sent) && SentFirst(out)
    requires i < |sent| && j <= |out| && Formed(x, lengths) && x.attempts > 0
    requires forall k :: 0 <= k < j ==> out[k].attempts > 0
    ensures AllFormed(RemoveAt(sent, i), lengths) && AllSent(RemoveAt(sent, i)) && AllFormed(InsertAt(out, j, x), lengths)
    ensures SentFirst(InsertAt(out, j, x))
    ensures Total(sent) == Total(RemoveAt(sent, i)) + sent[i].length && (!sent[i].packet ==> sent[i].length == 0)
  {
    hide Total, Using, Unsent, Formed, SentFirst, InsertAt, RemoveAt, AllFormed, AllSent;
    Remove(sent, i, 0);
    LengthOf(sent, lengths, i);
    SentFirstInserted(out, j, x);
    FormedMoveBack(out, sent, i, j, x, lengths);
  }

  lemma FormedMoveBack(out: seq<Outgoing>, sent: seq<Outgoing>, i: nat, j: nat, x: Outgoing, lengths: seq<seq<nat>>)
    requires AllFormed(out, lengths) && AllFormed(sent, lengths) && AllSent(sent)
    requires i < |sent| && j <= |out| && Formed(x, lengths)
    ensures AllFormed(RemoveAt(sent, i), lengths) && AllSent(RemoveAt(sent, i)) && AllFormed(InsertAt(out, j, x), lengths)
  {
    hide Formed;
  }

  lemma LengthOf(q: seq<Outgoing>, lengths: seq<seq<nat>>, i: nat)
    requires AllFormed(q, lengths) && i < |q|
    ensures !q[i].packet ==> q[i].length == 0
  {
  }

  lemma SentFirstInserted(out: seq<Outgoing>, j: nat, x: Outgoing)
    requires SentFirst(out) && j <= |out| && x.attempts > 0 && forall k :: 0 <= k < j ==> out[k].attempts > 0
    ensures SentFirst(InsertAt(out, j, x))
  {
    var p := InsertAt(out, j, x);
    forall a, b | 0 <= a < b < |p| && p[a].reliable && p[b].reliable && p[a].attempts == 0 ensures p[b].attempts == 0 {
      assert a > j && p[a] == out[a - 1] && p[b] == out[b - 1];
    }
  }

  /** The walk over the sent commands has come to position k of q: i of them stay, and j stand in front of
      the list out. */
  ghost predicate Walked(q: seq<Outgoing>, out: seq<Outgoing>, now: uint32, k: nat, i: nat, j: nat, sent: seq<Outgoing>, outgoing: seq<Outgoing>) {
    && k <= |q| && i == |Waiting(q[..k], now)| && j == |Expired(q[..k], now)|
    && sent == Waiting(q[..k], now) + q[k..] && outgoing == Expired(q[..k], now) + out
    && forall n :: 0 <= n < j ==> outgoing[n].attempts > 0
  }

  lemma WalkStarts(q: seq<Outgoing>, out: seq<Outgoing>, now: uint32)
    ensures Walked(q, out, now, 0, 0, 0, q, out)
  {
  }

  lemma WalkMeans(q: seq<Outgoing>, out: seq<Outgoing>, now: uint32, k: nat, i: nat, j: nat, sent: seq<Outgoing>, outgoing: seq<Outgoing>)
    requires Walked(q, out, now, k, i, j, sent, outgoing)
    ensures k <= |q| && i <= |sent| && j <= |outgoing| && (i < |sent| <==> k < |q|) && (k < |q| ==> sent[i] == q[k])
    ensures sent == Waiting(q[..k], now) + q[k..] && outgoing == Expired(q[..k], now) + out
    ensures forall n :: 0 <= n < j ==> outgoing[n].attempts > 0
  {
    hide Waiting, Expired;
  }

  /** One turn of the loop: the command stays, or goes behind those that went before it. */
  lemma WalkStays(q: seq<Outgoing>, out: seq<Outgoing>, now: uint32, k: nat, i: nat, j: nat, sent: seq<Outgoing>, outgoing: seq<Outgoing>)
    requires Walked(q, out, now, k, i, j, sent, outgoing) && k < |q| && !TimedOut(q[k], now)
    ensures Walked(q, out, now, k + 1, i + 1, j, sent, outgoing)
  {
    hide TimedOut, Waiting, Expired;
    OneMore(q, k, now);
    assert q[k..] == [q[k]] + q[k + 1..];
  }

  lemma WalkReturns(q: seq<Outgoing>, out: seq<Outgoing>, now: uint32, k: nat, i: nat, j: nat, sent: seq<Outgoing>, outgoing: seq<Outgoing>)
    requires Walked(q, out, now, k, i, j, sent, outgoing) && k < |q| && TimedOut(q[k], now) && AllSent(sent)
    ensures i < |sent| && j <= |outgoing|
    ensures Walked(q, out, now, k + 1, i, j + 1, RemoveAt(sent, i), InsertAt(outgoing, j, Resent(q[k])))
  {
    hide TimedOut, Waiting, Expired;
    OneMore(q, k, now);
    assert sent[i] == q[k];
    var e := Expired(q[..k], now);
    assert (e + out)[..j] == e && (e + out)[j..] == out;
    var front := InsertAt(outgoing, j, Resent(q[k]));
    forall n | 0 <= n < j + 1 ensures front[n].attempts > 0 {
      assert n < j ==> front[n] == outgoing[n];
    }
  }

  lemma NothingLateYet(q: seq<Outgoing>, now: uint32, start: uint32)
    ensures Earliest(q[..0], now, start) == start
  {
  }

  /** One channel, when a command goes to the end of the list. */
  lemma ChannelQueues(ws: Windows, u: multiset<nat>, out: seq<Outgoing>, y: Outgoing, c: nat, last: nat, queued: nat, queued': nat)
    requires ChannelOk(ws, u, Unsent(out, c), last, queued) && y.attempts == 0
    requires if OnChannel(y, c) then queued' == queued + 1 == y.number else queued' == queued
    ensures Using(out + [y], c) == Using(out, c) && ChannelOk(ws, u, Unsent(out + [y], c), last, queued')
  {
    hide Using, Unsent, Counts, Win, Elements;
    Concat(out, [y], c);
    One(y, c);
    assert Unsent(out + [y], c) == Unsent(out, c) + if OnChannel(y, c) then [queued'] else [];
  }

  /** All channels. */
  lemma AllQueue(windows: seq<Windows>, out: seq<Outgoing>, sent: seq<Outgoing>, y: Outgoing, last: seq<nat>, queued: seq<nat>, queued': seq<nat>)
    requires |windows| == |last| == |queued| && y.attempts == 0
    requires if y.reliable && y.channel < |queued| then queued' == queued[y.channel := y.number] && y.number == queued[y.channel] + 1
             else queued' == queued
    requires forall b :: 0 <= b < |windows| ==> ChannelOk(windows[b], Using(sent, b) + Using(out, b), Unsent(out, b), last[b], queued[b])
    ensures forall b :: 0 <= b < |windows| ==>
      ChannelOk(windows[b], Using(sent, b) + Using(out + [y], b), Unsent(out + [y], b), last[b], queued'[b])
  {
    hide ChannelOk, Using, Unsent;
    forall b | 0 <= b < |windows|
      ensures ChannelOk(windows[b], Using(sent, b) + Using(out + [y], b), Unsent(out + [y], b), last[b], queued'[b])
    {
      ChannelQueues(windows[b], Using(sent, b) + Using(out, b), out, y, b, last[b], queued[b], queued'[b]);
    }
  }

  lemma NotUsed(out: seq<Outgoing>, y: Outgoing, c: nat)
    requires y.attempts == 0
    ensures Using(out + [y], c) == Using(out, c)
  {
    hide Using, Unsent;
    Concat(out, [y], c);
    One(y, c);
  }

  lemma ListsQueue(out: seq<Outgoing>, sent: seq<Outgoing>, y: Outgoing, before: seq<seq<nat>>, lengths: seq<seq<nat>>)
    requires AllFormed(out, before) && AllFormed(sent, before) && SentFirst(out) && Formed(y, lengths) && y.attempts == 0
    requires |before| == |lengths| && forall c :: 0 <= c < |before| ==> before[c] <= lengths[c]
    ensures AllFormed(out + [y], lengths) && AllFormed(sent, lengths) && SentFirst(out + [y])
  {
  }

  lemma HasCounts(ws: Windows, u: multiset<nat>, unsent: seq<nat>, last: nat, queued: nat)
    requires ChannelOk(ws, u, unsent, last, queued)
    ensures |ws.counts| == WINDOWS
  {
  }

  class Sender {
    // reliableWindows and usedReliableWindows of each channel
    var windows: seq<Windows>
    // outgoingReliableSequenceNumber of each channel
    var queued: seq<nat>
    // outgoingUnreliableSequenceNumber
    var unreliableNumber: seq<nat>
    // outgoingReliableSequenceNumber of the peer, for commands without a channel
    var controlQueued: nat
    // outgoingUnsequencedGroup
    var group: uint16
    // the last of the channel's numbers sent for the first time, and the lengths of all its numbers
    ghost var last: seq<nat>
    ghost var lengths: seq<seq<nat>>
    var outgoing: seq<Outgoing>
    var sentReliable: seq<Outgoing>
    var sentUnreliable: seq<Outgoing>
    // reliableDataInTransit
    var inTransit: nat
    var throttleCounter: nat
    var earliestTimeout: uint32

    /** What was sent on channel c and is not acknowledged, whichever list it is in. */
    ghost function InUse(c: nat): multiset<nat>
      reads this`sentReliable, this`outgoing
    {
      Using(sentReliable, c) + Using(outgoing, c)
    }

    ghost predicate ChannelsOk()
      reads this`windows, this`queued, this`last, this`sentReliable, this`outgoing
    {
      && |windows| == |queued| == |last|
      && forall c :: 0 <= c < |windows| ==> ChannelOk(windows[c], InUse(c), Unsent(outgoing, c), last[c], queued[c])
    }

    ghost predicate ListsOk()
      reads this`outgoing, this`sentReliable, this`lengths, this`inTransit
    {
      && AllFormed(outgoing, lengths) && AllFormed(sentReliable, lengths) && AllSent(sentReliable)
      && SentFirst(outgoing) && inTransit == Total(sentReliable)
    }

    /** Every channel has its numbers. */
    ghost predicate Shaped()
      reads this`windows, this`queued, this`unreliableNumber, this`lengths
    {
      && |windows| == |queued| == |unreliableNumber| == |lengths| <= MAXIMUM_CHANNELS
      && forall c :: 0 <= c < |windows| ==> |lengths[c]| == queued[c]
    }

    ghost predicate Valid()
      reads this`windows, this`queued, this`unreliableNumber, this`last, this`lengths, this`outgoing, this`sentReliable, this`inTransit
    {
      Shaped() && ChannelsOk() && ListsOk()
    }

    constructor (channels: nat)
      requires channels <= MAXIMUM_CHANNELS
      ensures Valid() && |windows| == channels && outgoing == [] && sentReliable == []
      ensures forall c :: 0 <= c < channels ==> last[c] == queued[c] == 0
    {
      windows := seq(channels, c => NO_WINDOWS);
      queued := seq(channels, c => 0);
      unreliableNumber := seq(channels, c => 0);
      last := seq(channels, c => 0);
      lengths := seq(channels, c => []);
      outgoing, sentReliable, sentUnreliable := [], [], [];
      inTransit, throttleCounter, earliestTimeout, controlQueued, group := 0, 0, 0, 0, 0;
      new;
      StartsOk();
    }

    /** The numbers that a command gets. What carries no data belongs to no channel and is numbered for the
        whole peer. */
    method Number(x: Outgoing, unsequenced: bool) returns (y: Outgoing)
      requires Shaped() && (x.packet <==> x.channel < |windows|) && (!x.packet ==> x.channel == CONTROL)
      modifies this`queued, this`unreliableNumber, this`controlQueued, this`group, this`lengths
      ensures Shaped()
      ensures lengths == if x.packet && x.reliable then Longer(old(lengths), x.channel, [x.length]) else old(lengths)
      ensures controlQueued == old(controlQueued) + (if x.packet then 0 else 1)
      ensures group == if x.packet && !x.reliable && unsequenced then (old(group) + 1) % SPACE else old(group)
      ensures !x.packet || (!x.reliable && unsequenced) ==>
        && queued == old(queued) && unreliableNumber == old(unreliableNumber)
        && y == Queued(x, if x.packet then 0 else controlQueued, 0, if x.packet then group else x.group)
      ensures x.packet && (x.reliable || !unsequenced) ==>
        var c := x.channel;
        var n, u := old(queued[c]), old(unreliableNumber[c]);
        var n', u' := if x.reliable then n + 1 else n, if x.reliable then 0 else if x.offset == 0 then u + 1 else u;
        && queued == old(queued)[c := n'] && unreliableNumber == old(unreliableNumber)[c := u'] && y == Queued(x, n', u', x.group)
    {
      hide Longer, Queued;
      var c := x.channel;
      if c == CONTROL {
        controlQueued := controlQueued + 1;
        y := Queued(x, controlQueued, 0, x.group);
      } else if x.reliable {
        queued := queued[c := queued[c] + 1];
        unreliableNumber := unreliableNumber[c := 0];
        lengths := Longer(lengths, c, [x.length]);
        y := Queued(x, queued[c], 0, x.group);
      } else if unsequenced {
        group := (group + 1) % SPACE;
        y := Queued(x, 0, 0, group);
      } else {
        if x.offset == 0 {
          unreliableNumber := unreliableNumber[c := unreliableNumber[c] + 1];
        }
        y := Queued(x, queued[c], unreliableNumber[c], x.group);
      }
    }

    /** enet_peer_setup_outgoing_command: the command gets its numbers and goes to the end of the list. */
    method Setup(x: Outgoing, unsequenced: bool)
      requires Shaped() && (x.packet <==> x.channel < |windows|) && (!x.packet ==> x.channel == CONTROL && x.length == 0)
      requires x.size + x.length < SPACE
      requires x.packet && !x.reliable && !unsequenced ==> x.offset == 0 || unreliableNumber[x.channel] > 0
      modifies this`queued, this`unreliableNumber, this`controlQueued, this`group, this`outgoing, this`lengths
      ensures Shaped() && (old(Valid()) ==> Valid()) && |windows| == old(|windows|)
      ensures forall c :: 0 <= c < |windows| ==> InUse(c) == old(InUse(c))
      ensures lengths == if x.packet && x.reliable then Longer(old(lengths), x.channel, [x.length]) else old(lengths)
      ensures controlQueued == old(controlQueued) + (if x.packet then 0 else 1)
      ensures group == if x.packet && !x.reliable && unsequenced then (old(group) + 1) % SPACE else old(group)
      ensures !x.packet || (!x.reliable && unsequenced) ==>
        && queued == old(queued) && unreliableNumber == old(unreliableNumber)
        && outgoing == old(outgoing) + [Queued(x, if x.packet then 0 else controlQueued, 0, if x.packet then group else x.group)]
      ensures x.packet && (x.reliable || !unsequenced) ==>
        var c := x.channel;
        var n, u := old(queued[c]), old(unreliableNumber[c]);
        var n', u' := if x.reliable then n + 1 else n, if x.reliable then 0 else if x.offset == 0 then u + 1 else u;
        && queued == old(queued)[c := n'] && unreliableNumber == old(unreliableNumber)[c := u']
        && outgoing == old(outgoing) + [Queued(x, n', u', x.group)]
    {
      hide ChannelOk, Using, Unsent, Total, AllFormed, AllSent, SentFirst, Longer;
      var y := Number(x, unsequenced);
      forall b | 0 <= b < |windows| ensures Using(outgoing + [y], b) == Using(outgoing, b) {
        NotUsed(outgoing, y, b);
      }
      if old(Valid()) {
        AllQueue(windows, outgoing, sentReliable, y, last, old(queued), queued);
        ListsQueue(outgoing, sentReliable, y, old(lengths), lengths);
      }
      outgoing := outgoing + [y];
    }

    /** enet_peer_send: what the sender queues are the pieces of the packet that it accepts. packets is
        what it accepted before in this channel's order. An unsequenced packet that needs no fragments takes
        no place in that order, and only uses up a group. */
    method Send(connected: bool, c: nat, data: seq<byte>, maximumPacketSize: nat, reliable: bool, unreliableFragment: bool,
                unsequenced: bool, size: nat, ghost packets: seq<Packet>)
      returns (ok: bool)
      requires Shaped() && 0 < size && size + CommandSize(SendFragment) < SPACE
      requires c < |windows| ==> queued[c] == LastReliable(packets) && unreliableNumber[c] == LastUnreliable(packets)
      modifies this`queued, this`unreliableNumber, this`controlQueued, this`group, this`outgoing, this`lengths
      ensures Shaped() && (old(Valid()) ==> Valid()) && |windows| == old(|windows|) && controlQueued == old(controlQueued)
      ensures forall c :: 0 <= c < |windows| ==> InUse(c) == old(InUse(c))
      ensures var p := NewPacket(packets, data, reliable, unreliableFragment, size);
        var ordered := !unsequenced || reliable || p.Fragmented();
        && (ok <==> connected && c < |windows| && |data| <= maximumPacketSize && p.Count() <= 1048576)
        && queued == (if ok && ordered then old(queued)[c := p.last] else old(queued))
        && unreliableNumber == (if ok && ordered then old(unreliableNumber)[c := p.unreliable] else old(unreliableNumber))
        && group == (if ok && !ordered then (old(group) + 1) % SPACE else old(group))
        && lengths == (if ok && ordered then Longer(old(lengths), c, PieceLengths(p)) else old(lengths))
        && p.Ok() && outgoing == old(outgoing) +
          if !ok then [] else if ordered then PiecesOf(p, c, p.Pieces()) else [UnsequencedCommand(c, |data|).(group := group)]
    {
      hide ChannelOk, ChannelsOk, ListsOk, PieceOf, LastReliable, LastUnreliable, Using, Unsent, PieceLengths, Longer;
      ghost var p := NewPacket(packets, data, reliable, unreliableFragment, size);
      NewPacketFollows(packets, data, reliable, unreliableFragment, size);
      NewPacketIs(packets, data, reliable, unreliableFragment, size, p);
      if !connected || c >= |windows| || |data| > maximumPacketSize {
        return false;
      }
      if |data| > size {
        var count := (|data| + size - 1) / size;
        SomePieces(p);
        if count > MAXIMUM_FRAGMENT_COUNT {
          return false;
        }
        var whole := reliable || !unreliableFragment || unreliableNumber[c] >= SPACE - 1;
        var fragments := Cut(c, data, whole, size, p);
        SetupAll(c, fragments, p);
        return true;
      }
      if !reliable && unsequenced {
        Setup(UnsequencedCommand(c, |data|), true);
        return true;
      }
      var whole := reliable || unreliableNumber[c] >= SPACE - 1;
      var x := Outgoing(c, whole, 0, 0, CommandSize(if whole then Kind.SendReliable else Kind.SendUnreliable), true, 0, |data|, 0, 0, 0, 0, 0);
      WholePiece(p, c);
      Setup(x, false);
      assert PiecesOf(p, c, 1) == [PieceOf(p, c, 0)];
      WholeLength(p);
      LongerNot(old(lengths), c);
      ok := true;
    }

    /** The queued commands get their numbers one after another. */
    method SetupAll(c: nat, fragments: seq<Outgoing>, ghost p: Packet)
      requires Shaped() && c < |windows| && p.Ok() && p.Fragmented() && fragments == Unnumbered(p, c, p.Count())
      requires p.size + CommandSize(SendFragment) < SPACE && p.Pieces() == p.Count() > 0
      requires if p.Reliable() then p.first == queued[c] + 1 else p.first == queued[c] && p.unreliable == unreliableNumber[c] + 1
      modifies this`queued, this`unreliableNumber, this`controlQueued, this`group, this`outgoing, this`lengths
      ensures Shaped() && (old(Valid()) ==> Valid()) && |windows| == old(|windows|)
      ensures controlQueued == old(controlQueued) && group == old(group)
      ensures lengths == Longer(old(lengths), c, PieceLengths(p))
      ensures forall c :: 0 <= c < |windows| ==> InUse(c) == old(InUse(c))
      ensures queued == old(queued)[c := p.last] && unreliableNumber == old(unreliableNumber)[c := p.unreliable]
      ensures outgoing == old(outgoing) + PiecesOf(p, c, p.Count())
    {
      hide ChannelOk, ChannelsOk, ListsOk, InUse, Using, Unsent, PieceOf, Packet.Count, Packet.Pieces, Packet.Offset, Packet.Piece, Packet.Fragmented,
        Packet.Length, FirstLengths, PieceLengths, Longer, PiecesOf, Unnumbered, Packet.Ok, CommandSize, AtPiece;
      var rest := fragments;
      ghost var k, start := 0, Numbers(queued, unreliableNumber, lengths, outgoing);
      FirstPiece(p, c, start);
      while rest != []
        invariant Shaped() && (old(Valid()) ==> Valid()) && |windows| == old(|windows|) && 0 <= k <= p.Count() && rest == fragments[k..]
        invariant controlQueued == old(controlQueued) && group == old(group)
        invariant forall c :: 0 <= c < |windows| ==> InUse(c) == old(InUse(c))
        invariant AtPiece(p, c, k, start, Numbers(queued, unreliableNumber, lengths, outgoing))
        decreases |rest|
      {
        var x := rest[0];
        FragmentFields(p, c, k);
        AtPieceMeans(p, c, k, start, Numbers(queued, unreliableNumber, lengths, outgoing));
        rest := rest[1..];
        ghost var before := Numbers(queued, unreliableNumber, lengths, outgoing);
        Setup(x, false);
        NextPiece(p, c, k, start, before, Numbers(queued, unreliableNumber, lengths, outgoing));
        k := k + 1;
      }
      LastPiece(p, c, start, Numbers(queued, unreliableNumber, lengths, outgoing));
    }

    /** The part of enet_protocol_check_outgoing_commands that sends the reliable command at position i. */
    method SendReliable(i: nat, l: Link)
      requires Valid() && i < |outgoing| && outgoing[i].reliable
      requires outgoing[i].channel < |windows| ==> i == 0
      requires outgoing[i].channel < |windows| && outgoing[i].attempts == 0 ==>
        !MustWait(windows[outgoing[i].channel], Num(outgoing[i].number))
      modifies this`windows, this`last, this`outgoing, this`sentReliable, this`inTransit
      ensures Valid() && |windows| == |old(windows)|
      ensures outgoing == RemoveAt(old(outgoing), i) && sentReliable == old(sentReliable) + [Sent(old(outgoing[i]), l)]
      ensures inTransit == old(inTransit + outgoing[i].length)
      ensures old(outgoing[i]).channel >= |windows| ==> windows == old(windows)
      // the channel's next number is in use if this is the first sending, and all that it has in use is in flight then
      ensures SentOn(old(Now()), Now(), old(outgoing[i]))
    {
      hide ChannelOk, MustWait, WindowWraps, Counted, RemoveAt, Using, Unsent, Total, AllFormed, AllSent, SentFirst, Elements, InTransit;
      var x := outgoing[i];
      var y := Sent(x, l);
      forall c | 0 <= c < |windows| {
        ChannelSends(windows[c], outgoing, sentReliable, i, y, c, |windows|, last[c], queued[c]);
      }
      FormedAt(outgoing, lengths, i);
      ListsSend(outgoing, sentReliable, i, y, lengths);
      if x.channel < |windows| && x.attempts == 0 {
        windows := windows[x.channel := Counted(windows[x.channel], Num(x.number))];
        last := last[x.channel := x.number];
      }
      outgoing := RemoveAt(outgoing, i);
      sentReliable := sentReliable + [y];
      inTransit := inTransit + x.length;
      if x.channel < |windows| && x.attempts == 0 {
        NothingWaitsAgain(old(outgoing), x.channel);
        AllInFlight(windows[x.channel], sentReliable, outgoing, x.channel, lengths, last[x.channel], queued[x.channel]);
      }
    }

    /** Whether the command at position i has to stay, in view of the windows and of the data in flight. */
    method Weigh(i: nat, l: Link, windowWrap: bool, windowExceeded: bool) returns (stays: bool, wrap: bool, exceeded: bool)
      requires Valid() && i < |outgoing|
      ensures var x := outgoing[i];
        && wrap == (windowWrap || Wraps(x, windows))
        && exceeded == (windowExceeded || (Crowds(x, inTransit, l) && !(x.channel < |windows| && wrap)))
        && stays == (x.reliable && ((x.channel < |windows| && wrap) || (x.packet && exceeded)))
        && Formed(x, lengths)
        && (x.reliable && !stays && x.channel < |windows| ==> !wrap && !exceeded)
        && (x.reliable && !stays ==> (!x.packet && x.length == 0) || inTransit + x.length <= WindowLimit(l))
    {
      hide ChannelOk, MustWait, Using, Unsent, Total, AllFormed, AllSent, SentFirst, WindowLimit;
      var x := outgoing[i];
      FormedAt(outgoing, lengths, i);
      wrap, exceeded := windowWrap, windowExceeded;
      if x.reliable {
        if x.channel < |windows| {
          HasCounts(windows[x.channel], InUse(x.channel), Unsent(outgoing, x.channel), last[x.channel], queued[x.channel]);
          if !wrap && x.attempts < 1 && MustWait(windows[x.channel], Num(x.number)) {
            wrap := true;
          }
          if wrap {
            return true, wrap, exceeded;
          }
        }
        if x.packet {
          if !exceeded && inTransit + x.length > WindowLimit(l) {
            exceeded := true;
          }
          if exceeded {
            return true, wrap, exceeded;
          }
        }
      }
      stays := false;
    }

    /** The command at position i goes into the datagram, or is dropped for the throttle's sake. The pass is
        broken if what is dropped with it should not be. */
    method SendOne(i: nat, l: Link) returns (sent: bool, broken: bool, ghost n: nat)
      requires Valid() && i < |outgoing|
      requires var x := outgoing[i];
        x.reliable && x.channel < |windows| ==> i == 0 && !Wraps(x, windows)
      modifies this`windows, this`last, this`outgoing, this`sentReliable, this`sentUnreliable, this`inTransit, this`throttleCounter
      ensures |windows| == |old(windows)| && (!broken ==> Valid()) && Handled(old(Now()), Now(), i, l, sent, broken, n)
    {
      hide ChannelOk, MustWait, WindowWraps, Using, Unsent, Total, AllFormed, AllSent, SentFirst, RemoveAt, Elements, Sent, RunEnd, InTransit,
        Tick, SentOn, Harms;
      var x := outgoing[i];
      NothingMore(sentReliable);
      sent, broken, n := true, false, 0;
      if x.reliable {
        if x.channel < |windows| {
          HasCounts(windows[x.channel], InUse(x.channel), Unsent(outgoing, x.channel), last[x.channel], queued[x.channel]);
        }
        SendReliable(i, l);
      } else {
        if x.packet && x.offset == 0 {
          throttleCounter := Tick(throttleCounter);
          ghost var ticked := Now();
          if throttleCounter > l.packetThrottle {
            broken, n := DropUnreliable(i);
            sent := false;
            if !broken {
              CounterAside(old(Now()), ticked, Now(), x);
            }
            return;
          }
        }
        ghost var ticked := Now();
        SendUnreliable(i);
        CounterAside(old(Now()), ticked, Now(), x);
      }
    }

    ghost function Now(): View
      reads this
    {
      View(windows, queued, last, lengths, outgoing, sentReliable, inTransit, throttleCounter)
    }

    /** The command at position i goes, or is dropped. */
    method Forward(i: nat, l: Link, d: Datagram, windowWrap: bool, windowExceeded: bool, ghost p: Pass, ghost w: Was)
      returns (d': Datagram, broken: bool, ghost p': Pass, ghost n: nat)
      requires Valid() && Underway(p, w, Now(), i, d, windowWrap, windowExceeded, l)
      requires i < |outgoing| && !Full(d, outgoing[i], l) && l.mtu < SPACE
      requires var x := outgoing[i];
        && (x.reliable && x.channel < |windows| ==> !windowWrap && !windowExceeded && !Wraps(x, windows))
        && (x.reliable ==> (!x.packet && x.length == 0) || inTransit + x.length <= WindowLimit(l))
      modifies this`windows, this`last, this`outgoing, this`sentReliable, this`sentUnreliable, this`inTransit, this`throttleCounter
      ensures |windows| == |old(windows)|
      ensures !broken ==> Valid() && Underway(p', w, Now(), i, d', windowWrap, windowExceeded, l) && Further(p, p')
      ensures broken ==> p' == p && Broken(p, w, Now(), d', n, l)
    {
      hide Sweeps, AllRight, Staying, Going, Counter, Passing, ChannelOk, AllFormed, AllSent, SentFirst, Total, Using, Unsent, SentSince,
        ReliableOnly, Wraps, Crowds, WindowLimit, Within, Elements, SentFor, Throttled, Tick, Put, Sent, With, RunEnd, Harms, RemoveAt, Full,
        Formed, InTransit, MustWait, Underway, Broken, Valid, SentSoFar, Further, Handled, Filled;
      ghost var v := Now();
      UnderwayMeans(p, w, v, i, d, windowWrap, windowExceeded, l);
      var x := outgoing[i];
      FormedNow(i);
      var sent;
      sent, broken, n := SendOne(i, l);
      if broken {
        d', p' := d, p;
        n := WasBroken(p, w, v, Now(), i, d, windowWrap, windowExceeded, l, sent, n);
      } else if sent {
        d' := With(d, Put(x, l));
        p' := Went(p, w, v, Now(), i, d, windowWrap, windowExceeded, l, x, n);
      } else {
        d' := d;
        p' := WasDropped(p, w, v, Now(), i, d, windowWrap, windowExceeded, l, x, n);
      }
    }

    lemma FormedNow(i: nat)
      requires Valid() && i < |outgoing|
      ensures Formed(outgoing[i], lengths)
    {
    }

    /** enet_protocol_check_outgoing_commands: one pass over the list, filling the datagram d. The model stops
        where a drop takes what it should not; n is how far that went. */
    method CheckOutgoing(l: Link, room: Datagram) returns (d: Datagram, broken: bool, ghost p: Pass, ghost w: Was, ghost n: nat)
      requires Valid() && room.bytes <= l.mtu < SPACE
      modifies this`windows, this`last, this`outgoing, this`sentReliable, this`sentUnreliable, this`inTransit, this`throttleCounter
      ensures |windows| == old(|windows|) && p.q == old(outgoing) && p.start == old(throttleCounter)
      ensures w.room == room && w.kept == old(sentReliable) && w.inTransit == old(inTransit) && w.queued == old(queued) && w.last == old(last)
      ensures |w.before| == |windows| && forall c :: 0 <= c < |windows| ==> w.before[c] == Elements(old(InUse(c)))
      // every command considered is sent, dropped, swept or left, each rightly; their order is kept
      ensures |p.fate| <= |p.q| && Sweeps(p.q, p.fate) && AllRight(p, windows, inTransit, l)
      // nothing stays but behind a command that is held back itself, and behind that no reliable packet goes
      ensures Holding(p.q, p.fate, windows, inTransit, l)
      ensures p.added == Going(p.q, p.fate, l) && d == Filled(room, p.added)
      // what was sent reliably is kept until it is acknowledged, in the order of sending
      ensures sentReliable == w.kept + ReliableOnly(p.added) && queued == w.queued
      ensures broken ==> Broken(p, w, Now(), d, n, l)
      // otherwise the pass goes on to the end of the list, or to a command that finds no room
      ensures !broken ==>
        && Valid() && outgoing == Staying(p.q, p.fate) + p.q[|p.fate|..] && throttleCounter == Counter(p.q, p.fate, p.start)
        && d.bytes <= l.mtu && |d.commands| <= Max(|room.commands|, 32) && d.buffers <= Max(room.buffers, 65)
        && (|p.fate| < |p.q| ==>
          var x := p.q[|p.fate|];
          || |d.commands| >= 32 || d.buffers + 1 >= 65 || d.bytes + x.size > l.mtu
          || (x.packet && d.bytes + x.size + x.length > l.mtu))
        // the reliable data in flight keeps within the window
        && inTransit <= Max(w.inTransit, WindowLimit(l))
        // on each channel, new numbers are sent one by one in their order, each allowed by the window test, and all
        // that the channel has in use is within the window as well
        && SentSoFar(w, Now(), l)
    {
      hide Sweeps, AllRight, Staying, Going, Counter, Passing, ChannelOk, AllFormed, AllSent, SentFirst, Total, Using, Unsent, SentSince,
        ReliableOnly, Wraps, Crowds, WindowLimit, Within, Elements, SentFor, Throttled, Tick, Put, Sent, With, RunEnd, Harms, RemoveAt, Full,
        Formed, InTransit, MustWait, Underway, Broken, ListsOk, Decided, SentSoFar, Filled, Max, Holding;
      d, broken, n := room, false, 0;
      var i, windowExceeded, windowWrap := 0, false, false;
      p, w := Begins(Now(), room, l);
      while i < |outgoing|
        invariant |windows| == old(|windows|) && p.q == old(outgoing) && p.start == old(throttleCounter)
        invariant Underway(p, w, Now(), i, d, windowWrap, windowExceeded, l) && Valid()
        decreases |p.q| - |p.fate|
      {
        UnderwayMeans(p, w, Now(), i, d, windowWrap, windowExceeded, l);
        var x := outgoing[i];
        var stays, wrap, exceeded := Weigh(i, l, windowWrap, windowExceeded);
        if stays {
          PassesOver(p, w, Now(), i, d, windowWrap, windowExceeded, wrap, exceeded, l);
          DecidedLonger(p, Stays, l);
          i, windowWrap, windowExceeded, p := i + 1, wrap, exceeded, Decided(p, Stays, l);
          continue;
        }
        Limits(d, room, l);
        RoomTest(d, x, l, lengths);
        if || |d.commands| >= MAXIMUM_PACKET_COMMANDS || d.buffers + 1 >= BUFFER_MAXIMUM || l.mtu - d.bytes < x.size
           || (x.packet && (l.mtu - d.bytes) % SPACE < (x.size + x.length) % SPACE)
        {
          break;
        }
        d, broken, p, n := Forward(i, l, d, windowWrap, windowExceeded, p, w);
        if broken {
          BrokenMeans(p, w, Now(), d, n, l);
          return;
        }
        UnderwayMeans(p, w, Now(), i, d, windowWrap, windowExceeded, l);
      }
      UnderwayMeans(p, w, Now(), i, d, windowWrap, windowExceeded, l);
      Limits(d, room, l);
      if i < |outgoing| {
        NoRoom(d, outgoing[i], l);
      }
    }

    /** enet_protocol_remove_sent_reliable_command: the command with this number and channel, if it was
        sent and is still kept. The search stops at the first command never sent, and misses nothing. */
    method RemoveSentReliable(n: uint16, channel: nat) returns (removed: bool, ghost number: nat, ghost wasSent: bool, ghost k: nat)
      requires Valid()
      modifies this`windows, this`outgoing, this`sentReliable, this`inTransit
      ensures Valid() && |windows| == old(|windows|)
      ensures removed <==> exists j :: j in old(InUse(channel)) && Num(j) == n
      ensures removed ==> number in old(InUse(channel)) && Num(number) == n && InUse(channel) == old(InUse(channel)) - multiset{number}
      ensures forall c :: 0 <= c < |windows| && c != channel ==> InUse(c) == old(InUse(c))
      ensures !removed ==> InUse(channel) == old(InUse(channel))
      // it leaves the list it was in, and nothing else does
      ensures removed ==> k < |old(if wasSent then sentReliable else outgoing)| && old(if wasSent then sentReliable else outgoing)[k].number == number
      ensures sentReliable == if removed && wasSent then RemoveAt(old(sentReliable), k) else old(sentReliable)
      ensures outgoing == if removed && !wasSent then RemoveAt(old(outgoing), k) else old(outgoing)
    {
      hide ChannelOk, Using, Unsent, Total, AllFormed, SentFirst, RemoveAt, Discounted;
      number, wasSent, k := 0, false, 0;
      var i := 0;
      while i < |sentReliable| && !(Num(sentReliable[i].number) == n && sentReliable[i].channel == channel)
        invariant 0 <= i <= |sentReliable|
        invariant forall k :: 0 <= k < i ==> !(Num(sentReliable[k].number) == n && sentReliable[k].channel == channel)
      {
        i := i + 1;
      }
      var found := i < |sentReliable|;
      var j := 0;
      if !found {
        while j < |outgoing|
          invariant 0 <= j <= |outgoing|
          invariant forall k :: 0 <= k < j ==> !Matches(outgoing[k], n, channel)
        {
          if outgoing[j].reliable {
            if outgoing[j].attempts < 1 {
              NothingMatches(outgoing, sentReliable, j, n, channel);
              return false, 0, false, 0;
            }
            if Num(outgoing[j].number) == n && outgoing[j].channel == channel {
              break;
            }
          }
          j := j + 1;
        }
        if j == |outgoing| {
          NothingMatches(outgoing, sentReliable, j, n, channel);
          return false, 0, false, 0;
        }
      }
      removed, wasSent, k := true, found, if found then i else j;
      number := Take(if found then i else j, found, channel);
    }

    /** enet_protocol_check_timeouts: what was not acknowledged in time goes back to the front of the list
        of commands to send, in its order. The result is true if the peer is given up. */
    method CheckTimeouts(now: uint32, timeoutMinimum: nat, timeoutMaximum: nat) returns (lost: bool, ghost k: nat)
      requires Valid()
      modifies this`outgoing, this`sentReliable, this`inTransit, this`earliestTimeout
      ensures Valid() && forall c :: 0 <= c < |windows| ==> InUse(c) == old(InUse(c))
      // the peer is given up at the first command that is late enough; k is how far the walk went
      ensures var q, e := old(sentReliable), old(earliestTimeout);
        && k <= |q| && (forall n :: 0 <= n < k ==> !GivesUp(q, n, now, e, timeoutMinimum, timeoutMaximum))
        && (if lost then k < |q| && GivesUp(q, k, now, e, timeoutMinimum, timeoutMaximum) else k == |q|)
        && sentReliable == Waiting(q[..k], now) + q[k..] && outgoing == Expired(q[..k], now) + old(outgoing)
        && earliestTimeout == Earliest(if lost then q[..k + 1] else q, now, e)
    {
      hide Shaped, ChannelsOk, InUse, Using, Unsent, Total, AllFormed, AllSent, SentFirst, RemoveAt, InsertAt, TimeDifference, TimeLess, Waiting,
        Expired, Resent, Earliest, Walked, GivesUp;
      k := 0;
      ghost var q, out := sentReliable, outgoing;
      var i: nat, insertPosition: nat := 0, 0;
      WalkStarts(q, out, now);
      NothingLateYet(q, now, earliestTimeout);
      while i < |sentReliable|
        invariant Valid() && 0 <= k <= |q| && Walked(q, out, now, k, i, insertPosition, sentReliable, outgoing)
        invariant forall c :: 0 <= c < |windows| ==> InUse(c) == old(InUse(c))
        invariant earliestTimeout == Earliest(q[..k], now, old(earliestTimeout))
        invariant forall n :: 0 <= n < k ==> !GivesUp(q, n, now, old(earliestTimeout), timeoutMinimum, timeoutMaximum)
        decreases |q| - k
      {
        var x := sentReliable[i];
        WalkMeans(q, out, now, k, i, insertPosition, sentReliable, outgoing);
        OneLater(q, k, now, old(earliestTimeout));
        GivesUpIs(q, k, now, old(earliestTimeout), Earliest(q[..k + 1], now, old(earliestTimeout)), timeoutMinimum, timeoutMaximum);
        if TimeDifference(now, x.sentTime) < x.timeout {
          WalkStays(q, out, now, k, i, insertPosition, sentReliable, outgoing);
          i := i + 1;
          k := k + 1;
          continue;
        }
        if earliestTimeout == 0 || TimeLess(x.sentTime, earliestTimeout) {
          earliestTimeout := x.sentTime;
        }
        if earliestTimeout != 0
          && (TimeDifference(now, earliestTimeout) >= timeoutMaximum
              || (x.timeout >= x.limit && TimeDifference(now, earliestTimeout) >= timeoutMinimum))
        {
          return true, k;
        }
        WalkReturns(q, out, now, k, i, insertPosition, sentReliable, outgoing);
        GoBack(i, insertPosition);
        insertPosition := insertPosition + 1;
        k := k + 1;
      }
      WalkMeans(q, out, now, k, i, insertPosition, sentReliable, outgoing);
      assert q[..k] == q;
      lost := false;
    }

    /** One command goes back. */
    method GoBack(i: nat, j: nat)
      requires Valid() && i < |sentReliable| && j <= |outgoing| && forall n :: 0 <= n < j ==> outgoing[n].attempts > 0
      modifies this`outgoing, this`sentReliable, this`inTransit
      ensures Valid() && forall c :: 0 <= c < |windows| ==> InUse(c) == old(InUse(c))
      ensures sentReliable == RemoveAt(old(sentReliable), i) && outgoing == InsertAt(old(outgoing), j, Resent(old(sentReliable[i])))
    {
      hide ChannelOk, Using, Unsent, Total, AllFormed, SentFirst, RemoveAt, InsertAt;
      var x := sentReliable[i];
      FormedAt(sentReliable, lengths, i);
      forall c | 0 <= c < |windows| {
        MovesBack(outgoing, sentReliable, i, j, Resent(x), c);
      }
      ListsMoveBack(outgoing, sentReliable, i, j, Resent(x), lengths);
      if x.packet {
        inTransit := inTransit - x.length;
      }
      sentReliable := RemoveAt(sentReliable, i);
      outgoing := InsertAt(outgoing, j, Resent(x));
    }

    /** The part after the search: the command at position i of the list it was found in. */
    method Take(i: nat, wasSent: bool, channel: nat) returns (ghost number: nat)
      requires Valid()
      requires if wasSent then i < |sentReliable| && OnChannel(sentReliable[i], channel) && sentReliable[i].attempts > 0
               else i < |outgoing| && OnChannel(outgoing[i], channel) && outgoing[i].attempts > 0
      modifies this`windows, this`outgoing, this`sentReliable, this`inTransit
      ensures Valid() && |windows| == old(|windows|)
      ensures number == old(if wasSent then sentReliable[i].number else outgoing[i].number)
      ensures sentReliable == old(if wasSent then RemoveAt(sentReliable, i) else sentReliable)
      ensures outgoing == old(if wasSent then outgoing else RemoveAt(outgoing, i))
      ensures number in old(InUse(channel)) && InUse(channel) == old(InUse(channel)) - multiset{number}
      ensures forall c :: 0 <= c < |windows| && c != channel ==> InUse(c) == old(InUse(c))
    {
      hide ChannelOk, Using, Unsent, Total, AllFormed, AllSent, SentFirst, RemoveAt, Discounted, Formed, Num;
      number := if wasSent then sentReliable[i].number else outgoing[i].number;
      ghost var sent := if wasSent then RemoveAt(sentReliable, i) else sentReliable;
      ghost var out := if wasSent then outgoing else RemoveAt(outgoing, i);
      forall c | 0 <= c < |windows|
        ensures Unsent(out, c) == Unsent(outgoing, c) && (c != channel ==> Using(sent, c) + Using(out, c) == InUse(c))
      {
        Removes(outgoing, sentReliable, i, wasSent, c);
      }
      Removes(outgoing, sentReliable, i, wasSent, channel);
      ListsRemove(outgoing, sentReliable, i, wasSent, lengths);
      if channel < |windows| {
        var x := if wasSent then sentReliable[i] else outgoing[i];
        HasCounts(windows[channel], InUse(channel), Unsent(outgoing, channel), last[channel], queued[channel]);
        AcknowledgedOk(windows[channel], InUse(channel), Unsent(outgoing, channel), last[channel], queued[channel], number);
        windows := windows[channel := Discounted(windows[channel], Num(x.number))];
      }
      if wasSent {
        if sentReliable[i].packet {
          inTransit := inTransit - sentReliable[i].length;
        }
        sentReliable := RemoveAt(sentReliable, i);
      } else {
        outgoing := RemoveAt(outgoing, i);
      }
      assert sentReliable == sent && outgoing == out;
    }

    /** Dropping an unreliable command from the list: the loop that drops its fragments with it. It goes by
        the two numbers alone, so that it also takes what belongs to other channels, and reliable commands
        behind an unsequenced one; and it looks for the packet of a command that has none. */
    method DropRun(i: nat) returns (harm: bool, ghost n: nat)
      requires i < |outgoing| && !outgoing[i].reliable && outgoing[i].packet
      modifies this`outgoing
      ensures DropEnds(old(outgoing), i, n) && outgoing == old(outgoing)[..i] + old(outgoing)[n..]
      ensures harm <==> Harms(old(outgoing), i)
      ensures !harm ==> n == RunEnd(old(outgoing), i, i + 1) && forall k :: i < k < n ==> !old(outgoing)[k].reliable
    {
      hide RemoveAt, Takes, RunEnd, Num, Harms;
      var x := outgoing[i];
      ghost var q := outgoing;
      harm, n := false, i;
      TakesNone(q, i);
      assert q[..i] + q[i..] == q;
      while true
        invariant i <= n < |q| && i < |outgoing| && outgoing == q[..i] + q[n..]
        invariant forall k :: i < k <= n ==> SameNumbers(q[k], x)
        invariant (forall k :: i <= k < n ==> q[k].packet) && (harm <==> Takes(q, i, n))
        decreases |q| - n
      {
        assert outgoing[i] == q[n];
        if !outgoing[i].packet {
          harm := true;
          break;
        }
        harm := harm || outgoing[i].reliable;
        TakesMore(q, i, n);
        RemoveFront(q, i, n);
        outgoing := RemoveAt(outgoing, i);
        n := n + 1;
        if i == |outgoing| || Num(outgoing[i].number) != Num(x.number) || outgoing[i].unreliable != x.unreliable {
          break;
        }
      }
      TakesHarm(q, i, n);
    }

    /** The sender stays in order if and only if no reliable command is taken. */
    method DropUnreliable(i: nat) returns (harm: bool, ghost n: nat)
      requires Valid() && i < |outgoing| && !outgoing[i].reliable && outgoing[i].packet
      modifies this`outgoing
      ensures DropEnds(old(outgoing), i, n) && outgoing == old(outgoing)[..i] + old(outgoing)[n..]
      ensures (harm <==> Harms(old(outgoing), i)) && (!harm ==> Valid() && n == RunEnd(old(outgoing), i, i + 1))
      ensures Valid() <==> forall k :: i < k < n ==> !old(outgoing)[k].reliable
      ensures Valid() ==> SentOn(old(Now()), Now(), old(outgoing[i]))
    {
      hide ChannelOk, Using, Unsent, Total, AllFormed, AllSent, SentFirst, RunEnd, Harms, InTransit, WindowWraps, Elements;
      ghost var q := outgoing;
      harm, n := DropRun(i);
      if k :| i < k < n && q[k].reliable {
        FormedAt(q, lengths, k);
        var c := q[k].channel;
        LosesOne(windows[c], q, i, n, k, sentReliable, c, last[c], queued[c]);
      } else {
        forall c | 0 <= c < |windows| {
          LosesNone(q, i, n, c);
        }
        ListsDrop(q, i, n, lengths);
      }
    }

    /** An unreliable command leaves the list for the datagram. */
    method SendUnreliable(i: nat)
      requires Valid() && i < |outgoing| && !outgoing[i].reliable
      modifies this`outgoing, this`sentUnreliable
      ensures Valid() && outgoing == RemoveAt(old(outgoing), i) && SentOn(old(Now()), Now(), old(outgoing[i]))
    {
      hide ChannelOk, Using, Unsent, Total, AllFormed, AllSent, SentFirst, InTransit, WindowWraps, Elements;
      forall c | 0 <= c < |windows| {
        RemoveOther(outgoing, i, c);
      }
      ListsDrop(outgoing, i, i + 1, lengths);
      if outgoing[i].packet {
        sentUnreliable := sentUnreliable + [outgoing[i]];
      }
      outgoing := RemoveAt(outgoing, i);
    }
  }

  /** A pass whose throttle drops the first command, when that takes what it should not, ends there. */
  lemma BreaksAtOnce(p: Pass, room: Datagram, d: Datagram, broken: bool, ws: seq<Windows>, inTransit: nat, l: Link)
    requires |p.fate| <= |p.q| && Sweeps(p.q, p.fate) && AllRight(p, ws, inTransit, l)
    requires p.added == Going(p.q, p.fate, l) && d == Filled(room, p.added)
    requires !broken && |p.fate| < |p.q| ==> Full(d, p.q[|p.fate|], l)
    requires p.q != [] && Throttled(p.q[0]) && Tick(p.start) > l.packetThrottle && Harms(p.q, 0) && !Full(room, p.q[0], l)
    ensures broken && p.fate == []
  {
    hide Tick, Throttled, RunEnd, Full, Sweeps, AllRight, Filled, Rightly;
    if p.fate != [] {
      FirstFate(p, ws, inTransit, l);
      var j :| 0 < j < RunEnd(p.q, 0, 1) && (p.q[j].reliable || !p.q[j].packet);
      SweptBehind(p.q, p.fate, 0, j);
      SweptRightly(p, j, ws, inTransit, l);
    }
    NothingGoes(p.q, l, room);
  }

  lemma NothingGoes(q: seq<Outgoing>, l: Link, room: Datagram)
    ensures Filled(room, Going(q, [], l)) == room
  {
  }

  lemma FirstFate(p: Pass, ws: seq<Windows>, inTransit: nat, l: Link)
    requires p.fate != [] && |p.fate| <= |p.q| && Sweeps(p.q, p.fate) && AllRight(p, ws, inTransit, l)
    requires Throttled(p.q[0]) && Tick(p.start) > l.packetThrottle
    ensures p.fate[0] == Dropped
  {
    hide Tick, RunEnd, Blocks, Sweeps;
    assert p.fate[..1] == [p.fate[0]] && [p.fate[0]][..0] == [];
    assert Rightly(p.q, 0, p.fate[0], Counter(p.q, p.fate[..0 + 1], p.start), ws, inTransit, l);
    FirstNotSwept(p.q, p.fate);
  }

  lemma FirstNotSwept(q: seq<Outgoing>, fate: seq<Fate>)
    requires fate != [] && |fate| <= |q| && Sweeps(q, fate)
    ensures fate[0] != Swept
  {
    hide RunEnd;
  }

  lemma SweptBehind(q: seq<Outgoing>, fate: seq<Fate>, k: nat, j: nat)
    requires |fate| <= |q| && k < |fate| && Sweeps(q, fate) && fate[k] == Dropped && k < j < RunEnd(q, k, k + 1)
    ensures j < |fate| && fate[j] == Swept
  {
    hide RunEnd;
  }

  lemma SweptRightly(p: Pass, j: nat, ws: seq<Windows>, inTransit: nat, l: Link)
    requires j < |p.fate| <= |p.q| && AllRight(p, ws, inTransit, l) && p.fate[j] == Swept
    ensures !p.q[j].reliable && p.q[j].packet
  {
    hide Counter;
    assert Rightly(p.q, j, p.fate[j], Counter(p.q, p.fate[..j + 1], p.start), ws, inTransit, l);
  }

  lemma RunOfTwo(q: seq<Outgoing>)
    requires |q| == 2 && SameNumbers(q[1], q[0])
    ensures RunEnd(q, 0, 1) == 2 && (q[1].reliable || !q[1].packet ==> Harms(q, 0))
  {
    if q[1].reliable || !q[1].packet {
      assert 0 < 1 < RunEnd(q, 0, 1);
    }
  }

  /** The reliable packet b has the first number that is 0 again, and stands behind the unsequenced packet a.
      The pass that drops a drops both, and the number is never sent: the next packet has the one after it. */
  method DropsReliable(s: Sender, c: nat, a: seq<byte>, b: seq<byte>, later: seq<byte>, size: nat, l: Link, room: Datagram,
                       ghost packets: seq<Packet>)
    requires s.Valid() && s.outgoing == [] && c < |s.windows| && |a| <= size && |b| <= size && |later| <= size
    requires 0 < size < SPACE - CommandSize(SendFragment)
    requires s.queued[c] == LastReliable(packets) == SPACE - 1 && s.unreliableNumber[c] == LastUnreliable(packets)
    requires room.bytes <= l.mtu < SPACE && !Full(room, UnsequencedCommand(c, |a|), l) && Tick(s.throttleCounter) > l.packetThrottle
    modifies s
    ensures |s.outgoing| == 1 && OnChannel(s.outgoing[0], c) && s.outgoing[0].number == SPACE + 1
    ensures forall k :: 0 <= k < |s.sentReliable| ==> !(OnChannel(s.sentReliable[k], c) && s.sentReliable[k].number >= SPACE)
  {
    hide Using, Unsent, Total, Tick, Sweeps, AllRight, Going, Filled, Harms, RunEnd, Longer, PieceLengths, SentSoFar, Within, Counter,
      LastReliable, LastUnreliable, ReliableOnly, ChannelOk, Broken, Elements, WindowLimit, Max, NewPacket, PieceOf, AllFormed, AllSent, SentFirst;
    NumbersUpTo(s);
    var ok := s.Send(true, c, a, size, false, false, true, size, packets);
    ghost var p := NewPacket(packets, a, false, false, size);
    NewPacketIs(packets, a, false, false, size, p);
    p := NewPacket(packets, b, true, false, size);
    SendSmall(s, c, b, size, packets);
    TwoQueued(s.outgoing, c, a, b, s.group, room, l);
    var d, broken;
    ghost var pass, w, n;
    d, broken, pass, w, n := s.CheckOutgoing(l, room);
    BreaksAtOnce(pass, room, d, broken, s.windows, s.inTransit, l);
    BothGone(pass, w, s.Now(), d, n, l);
    LastOf(packets, p);
    SendSmall(s, c, later, size, packets + [p]);
  }

  /** enet_peer_send of a reliable packet that needs no fragments. */
  method SendSmall(s: Sender, c: nat, data: seq<byte>, size: nat, ghost packets: seq<Packet>)
    requires s.Shaped() && c < |s.windows| && |data| <= size && 0 < size < SPACE - CommandSize(SendFragment)
    requires s.queued[c] == LastReliable(packets) && s.unreliableNumber[c] == LastUnreliable(packets)
    modifies s`queued, s`unreliableNumber, s`controlQueued, s`group, s`outgoing, s`lengths
    ensures s.Shaped() && (old(s.Valid()) ==> s.Valid()) && |s.windows| == old(|s.windows|) && s.group == old(s.group)
    ensures s.queued[c] == old(s.queued[c]) + 1 && s.unreliableNumber[c] == 0
    ensures var p := NewPacket(packets, data, true, false, size); p.last == s.queued[c] && p.unreliable == 0
    ensures s.outgoing == old(s.outgoing) + [Outgoing(c, true, s.queued[c], 0, CommandSize(Kind.SendReliable), true, 0, |data|, 0, 0, 0, 0, 0)]
  {
    hide Using, Unsent, Total, LastReliable, LastUnreliable, ChannelOk, PieceLengths, Longer, AllFormed, AllSent, SentFirst;
    ghost var p := NewPacket(packets, data, true, false, size);
    NewPacketIs(packets, data, true, false, size, p);
    WholePiece(p, c);
    var ok := s.Send(true, c, data, size, true, false, false, size, packets);
  }

  lemma TwoQueued(q: seq<Outgoing>, c: nat, a: seq<byte>, b: seq<byte>, group: uint16, room: Datagram, l: Link)
    requires !Full(room, UnsequencedCommand(c, |a|), l)
    requires q == [UnsequencedCommand(c, |a|).(group := group),
                   Outgoing(c, true, SPACE, 0, CommandSize(Kind.SendReliable), true, 0, |b|, 0, 0, 0, 0, 0)]
    ensures Throttled(q[0]) && RunEnd(q, 0, 1) == 2 && Harms(q, 0) && !Full(room, q[0], l) && q[1].packet
  {
    hide RunEnd, Harms;
    RunOfTwo(q);
  }

  /** The command that enet_peer_ping queues: it carries no data. */
  function Ping(): Outgoing {
    Outgoing(CONTROL, true, 0, 0, PING_SIZE, false, 0, 0, 0, 0, 0, 0, 0)
  }

  /** A ping has the peer's first number that is 0 again, and stands behind the unsequenced packet a. The
      pass that drops a goes on to the ping as if to drop it as well, and looks for its packet. */
  method FindsNoPacket(s: Sender, c: nat, a: seq<byte>, size: nat, l: Link, room: Datagram, ghost packets: seq<Packet>)
      returns (broken: bool, ghost p: Pass, ghost n: nat)
    requires s.Valid() && s.outgoing == [] && c < |s.windows| && |a| <= size && 0 < size < SPACE - CommandSize(SendFragment)
    requires s.queued[c] == LastReliable(packets) && s.unreliableNumber[c] == LastUnreliable(packets) && s.controlQueued == SPACE - 1
    requires room.bytes <= l.mtu < SPACE && !Full(room, UnsequencedCommand(c, |a|), l) && Tick(s.throttleCounter) > l.packetThrottle
    modifies s
    ensures broken && |p.q| == 2 && p.fate == [] && Unsequenced(p.q[0])
    ensures n == 1 < RunEnd(p.q, 0, 1) && p.q[1] == Queued(Ping(), SPACE, 0, 0) && s.outgoing == [p.q[1]]
  {
    hide Using, Unsent, Total, Tick, Sweeps, AllRight, Going, Filled, Harms, RunEnd, Longer, PieceLengths, SentSoFar, Within, Counter,
      LastReliable, LastUnreliable, ReliableOnly, ChannelOk, Broken, Elements, WindowLimit, Max, NewPacket, PieceOf, AllFormed, AllSent, SentFirst;
    var ok := s.Send(true, c, a, size, false, false, true, size, packets);
    ghost var t := NewPacket(packets, a, false, false, size);
    NewPacketIs(packets, a, false, false, size, t);
    s.Setup(Ping(), false);
    PingQueued(s.outgoing, c, a, s.group, room, l);
    var d;
    ghost var w;
    d, broken, p, w, n := s.CheckOutgoing(l, room);
    BreaksAtOnce(p, room, d, broken, s.windows, s.inTransit, l);
    PingLeft(p, w, s.Now(), d, n, l);
  }

  lemma PingQueued(q: seq<Outgoing>, c: nat, a: seq<byte>, group: uint16, room: Datagram, l: Link)
    requires !Full(room, UnsequencedCommand(c, |a|), l)
    requires q == [UnsequencedCommand(c, |a|).(group := group), Queued(Ping(), SPACE, 0, 0)]
    ensures Throttled(q[0]) && RunEnd(q, 0, 1) == 2 && Harms(q, 0) && !Full(room, q[0], l)
  {
    hide RunEnd, Harms;
    RunOfTwo(q);
  }

  lemma PingLeft(p: Pass, w: Was, v: View, d: Datagram, n: nat, l: Link)
    requires Broken(p, w, v, d, n, l) && p.fate == [] && |p.q| == 2 == RunEnd(p.q, 0, 1) && !p.q[1].packet
    ensures n == 1 && v.outgoing == [p.q[1]]
  {
    hide Tick, Sweeps, AllRight, Filled, Harms, RunEnd, Going;
  }

  lemma BothGone(p: Pass, w: Was, v: View, d: Datagram, n: nat, l: Link)
    requires Broken(p, w, v, d, n, l) && p.fate == [] && |p.q| == 2 == RunEnd(p.q, 0, 1) && p.q[1].packet
    ensures v.outgoing == [] && v.sent == w.kept
  {
    hide Tick, Sweeps, AllRight, Filled, Harms, RunEnd;
    NoneAdded(w.kept);
  }

  lemma LastOf(packets: seq<Packet>, p: Packet)
    ensures LastReliable(packets + [p]) == p.last && LastUnreliable(packets + [p]) == p.unreliable
  {
  }

  lemma NumbersUpTo(s: Sender)
    requires s.Valid()
    ensures forall k, c :: 0 <= k < |s.sentReliable| && 0 <= c < |s.queued| && OnChannel(s.sentReliable[k], c) ==>
      s.sentReliable[k].number <= s.queued[c]
  {
    hide ChannelOk;
  }

  lemma RemoveOther(q: seq<Outgoing>, i: nat, c: nat)
    requires i < |q| && !q[i].reliable
    ensures Using(RemoveAt(q, i), c) == Using(q, c) && Unsent(RemoveAt(q, i), c) == Unsent(q, c)
  {
    hide Using, Unsent, RemoveAt;
    Remove(q, i, c);
    assert Waits(q[i], c) == [] && Uses(q[i], c) == multiset{};
  }

  lemma ListsDrop(out: seq<Outgoing>, i: nat, n: nat, lengths: seq<seq<nat>>)
    requires AllFormed(out, lengths) && SentFirst(out) && i <= n <= |out|
    ensures AllFormed(out[..i] + out[n..], lengths) && SentFirst(out[..i] + out[n..])
  {
    hide Formed;
    var p := out[..i] + out[n..];
    forall a, b | 0 <= a < b < |p| && p[a].reliable && p[b].reliable && p[a].attempts == 0 ensures p[b].attempts == 0 {
      assert p[a] == out[if a < i then a else a - i + n] && p[b] == out[if b < i then b else b - i + n];
    }
  }

  /** No channel loses a command it must deliver. */
  lemma LosesNone(q: seq<Outgoing>, i: nat, n: nat, c: nat)
    requires i <= n <= |q| && forall k :: i <= k < n ==> !q[k].reliable
    ensures Using(q[..i] + q[n..], c) == Using(q, c) && Unsent(q[..i] + q[n..], c) == Unsent(q, c)
  {
    hide Using, Unsent;
    assert q == q[..i] + (q[i..n] + q[n..]);
    Concat(q[..i], q[i..n] + q[n..], c);
    Concat(q[i..n], q[n..], c);
    Concat(q[..i], q[n..], c);
    NoneOn(q[i..n], c);
  }

  /** A channel's command is among those dropped: its numbers have a gap, or a counter counts one too many. */
  lemma LosesOne(ws: Windows, q: seq<Outgoing>, i: nat, n: nat, k: nat, sent: seq<Outgoing>, c: nat, last: nat, queued: nat)
    requires i <= k < n <= |q| && OnChannel(q[k], c)
    requires ChannelOk(ws, Using(sent, c) + Using(q, c), Unsent(q, c), last, queued)
    ensures !ChannelOk(ws, Using(sent, c) + Using(q[..i] + q[n..], c), Unsent(q[..i] + q[n..], c), last, queued)
  {
    hide Using, Unsent, Counts, Win, Num, Elements, InFlight;
    var x, rest := q[k].number, q[..i] + q[n..];
    assert q == q[..i] + (q[i..n] + q[n..]);
    Concat(q[..i], q[i..n] + q[n..], c);
    Concat(q[i..n], q[n..], c);
    Concat(q[..i], q[n..], c);
    Remove(q[i..n], k - i, c);
    if q[k].attempts > 0 {
      var u, u' := Using(sent, c) + Using(q, c), Using(sent, c) + Using(rest, c);
      assert u' <= u && x in u && u[x] == 1 && x !in u';
      CountsDiffer(ws, u, u', x);
    }
  }

  lemma CountsDiffer(ws: Windows, u: multiset<nat>, u': multiset<nat>, x: nat)
    requires u' <= u && x in u && x !in u' && Counts(ws, Elements(u))
    ensures !Counts(ws, Elements(u'))
  {
    var v := Num(x) / WINDOW_SIZE;
    assert x in InFlight(Elements(u), v);
    SubsetSize(InFlight(Elements(u'), v), InFlight(Elements(u), v) - {x});
  }

  lemma RemoveFront(q: seq<Outgoing>, i: nat, n: nat)
    requires i <= n < |q|
    ensures RemoveAt(q[..i] + q[n..], i) == q[..i] + q[n + 1..]
  {
  }

  lemma FormedAt(q: seq<Outgoing>, lengths: seq<seq<nat>>, i: nat)
    requires AllFormed(q, lengths) && i < |q|
    ensures Formed(q[i], lengths)
  {
  }

  // ---- the sender's methods as steps of the channel's state machine

  /** t is reached from s by n steps FirstSend. */
  ghost predicate Sends(s: State, t: State, n: nat, limit: nat)
    decreases n
  {
    if n == 0 then s == t else exists m: State :: Sends(s, m, n - 1, limit) && Next(m, FirstSend(limit), t)
  }

  /** A link as enet negotiates it keeps the limit on data in flight within the state machine's. */
  predicate Negotiated(l: Link) { l.windowSize <= MAXIMUM_WINDOW_SIZE && l.packetThrottle <= THROTTLE_SCALE && l.mtu <= MAXIMUM_MTU }

  lemma LimitIsNegotiated(l: Link)
    requires Negotiated(l)
    ensures WindowLimit(l) <= MAXIMUM_WINDOW_SIZE
  {
    var w := l.packetThrottle * l.windowSize;
    MulMonotone(l.packetThrottle, THROTTLE_SCALE, l.windowSize);
    QuotientBetween(w, THROTTLE_SCALE, 0, MAXIMUM_WINDOW_SIZE + 1);
  }

  /** A pass over the list is a run of steps FirstSend on each channel, within the limit of its link. */
  lemma {:induction false} PassIsSteps(s: State, last: nat, limit: nat)
    requires s.sent <= last <= LastReliable(s.packets) && FirstSends(s.unacked, s.sent, last) && limit <= MAXIMUM_WINDOW_SIZE
    requires s.sent < last ==> InTransit(Lengths(s.packets), 0, s.unacked + Interval(s.sent + 1, last - s.sent)) <= limit
    ensures Sends(s, s.(sent := last, unacked := s.unacked + Interval(s.sent + 1, last - s.sent)), last - s.sent, limit)
    decreases last
  {
    hide *;
    if s.sent == last {
      NoSteps(s, limit);
    } else {
      var n := last - 1 - s.sent;
      var u, v := s.unacked + Interval(s.sent + 1, n), s.unacked + Interval(s.sent + 1, n + 1);
      LastOfSends(s.unacked, s.sent, last);
      UnionGrows(s.unacked, s.sent + 1, n);
      InTransitWithin(Lengths(s.packets), 0, u, v);
      PassIsSteps(s, last - 1, limit);
      SendsOneMore(s, last, u, v, limit);
    }
  }

  lemma SendsOneMore(s: State, last: nat, u: set<nat>, v: set<nat>, limit: nat)
    requires s.sent < last <= LastReliable(s.packets) && v == u + {last} && !WindowWraps(u, Num(last)) && limit <= MAXIMUM_WINDOW_SIZE
    requires InTransit(Lengths(s.packets), 0, v) <= limit && Sends(s, s.(sent := last - 1, unacked := u), last - 1 - s.sent, limit)
    ensures Sends(s, s.(sent := last, unacked := v), last - s.sent, limit)
  {
    hide *;
    var m, t := s.(sent := last - 1, unacked := u), s.(sent := last, unacked := v);
    OneStep(m, t, limit);
    StepAfter(s, m, t, last - 1 - s.sent, limit);
  }

  lemma LastOfSends(unacked: set<nat>, sent: nat, last: nat)
    requires FirstSends(unacked, sent, last) && sent < last
    ensures FirstSends(unacked, sent, last - 1) && !WindowWraps(unacked + Interval(sent + 1, last - 1 - sent), Num(last))
  {
    hide WindowWraps, Interval, Num;
  }

  lemma NoSteps(s: State, limit: nat)
    ensures Sends(s, s.(unacked := s.unacked + Interval(s.sent + 1, 0)), 0, limit)
  {
    assert s.unacked + Interval(s.sent + 1, 0) == s.unacked;
  }

  lemma UnionGrows(u: set<nat>, a: nat, n: nat)
    ensures u + Interval(a, n + 1) == u + Interval(a, n) + {a + n}
  {
  }

  lemma OneStep(m: State, t: State, limit: nat)
    requires m.sent < LastReliable(m.packets) && !WindowWraps(m.unacked, Num(m.sent + 1))
    requires InTransit(Lengths(m.packets), 0, m.unacked + {m.sent + 1}) <= limit <= MAXIMUM_WINDOW_SIZE
    requires t == m.(sent := m.sent + 1, unacked := m.unacked + {m.sent + 1})
    ensures Next(m, FirstSend(limit), t)
  {
    hide WindowWraps, InTransit, Lengths;
  }

  lemma StepAfter(s: State, m: State, t: State, n: nat, limit: nat)
    requires Sends(s, m, n, limit) && Next(m, FirstSend(limit), t)
    ensures Sends(s, t, n + 1, limit)
  {
    hide Next;
  }

  /** What RemoveSentReliable does with a number that was acknowledged is the step DeliverAck. */
  lemma RemovalIsStep(s: State, u: multiset<nat>, u': multiset<nat>, acknowledged: nat, removed: bool, number: nat)
    requires s.unacked == Elements(u) && acknowledged in s.acks && s.sent < acknowledged + SPACE
    requires forall j :: j in u ==> u[j] == 1
    requires removed <==> exists j :: j in u && Num(j) == Num(acknowledged)
    requires removed ==> number in u && Num(number) == Num(acknowledged) && u' == u - multiset{number}
    requires !removed ==> u' == u
    ensures Next(s, DeliverAck(acknowledged, number), s.(unacked := Elements(u')))
  {
    hide Num;
    if removed {
      ElementsShrink(u, number);
    }
    assert (exists j :: j in s.unacked && Num(j) == Num(acknowledged)) <==> (exists j :: j in u && Num(j) == Num(acknowledged)) by {
      forall j ensures j in s.unacked <==> j in u {
      }
    }
  }
}
