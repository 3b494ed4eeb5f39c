/** One channel of a connection as a state machine: the sender's packets and windows, a network that
    loses, duplicates and reorders, and the receiver's channel. Numbers that the code keeps modulo
    2^16 are unbounded here; the receiver and the window tests see only their 16-bit values. */
module DeliveryModel {
  import opened Words
  import opened Arithmetic
  import opened SequenceNumbers
  import opened IncomingChannel

  /** A packet that enet_peer_send accepted: the reliable numbers first..last of its commands (for an
      unreliable packet, twice the last reliable number before it), its unreliable number, and the
      length of its fragments. */
  datatype Packet = Packet(kind: Kind, first: nat, last: nat, unreliable: nat, data: seq<byte>, size: nat) {
    predicate Reliable() { kind == SendReliable || kind == SendFragment }

    predicate Fragmented() { kind == SendFragment || kind == SendUnreliableFragment }

    /** fragmentCount, 0 for a packet in one piece. */
    function Count(): nat {
      if Fragmented() && size > 0 then (|data| + size - 1) / size else 0
    }

    function Pieces(): (n: nat)
      ensures n > 0
    {
      if Count() > 0 then Count() else 1
    }

    ghost predicate Ok() {
      && (Fragmented() ==> 0 < size < |data|)
      && first <= last
      && (Reliable() ==> 1 <= first && last == first + Pieces() - 1 && unreliable == 0)
      && (!Reliable() ==> first == last && 1 <= unreliable < SPACE)
    }

    /** Where fragment f begins. */
    function Offset(f: nat): nat { f * size }

    /** Fragment f as a command; its number is its own, its start number the packet's. */
    function Wire(tag: nat, f: nat): Command
      requires Ok() && f < Pieces()
    {
      match kind
      case SendReliable => Command(kind, tag, Num(first), 0, 0, 0, 0, 0, data)
      case SendUnreliable => Command(kind, tag, Num(first), unreliable, 0, 0, 0, 0, data)
      case SendFragment => Command(kind, tag, Num(first + f), Num(first), Count(), f, Offset(f), |data|, Piece(f))
      case SendUnreliableFragment => Command(kind, tag, Num(first), unreliable, Count(), f, Offset(f), |data|, Piece(f))
    }

    /** How many bytes of data piece f carries. */
    function Length(f: nat): nat {
      if Count() == 0 then |data|
      else if Offset(f) + size <= |data| then size
      else if Offset(f) <= |data| then |data| - Offset(f)
      else 0
    }

    function Piece(f: nat): seq<byte>
      requires Ok() && Fragmented() && f < Count()
    {
      PieceBounds(f);
      data[Offset(f)..if Offset(f) + size <= |data| then Offset(f) + size else |data|]
    }

    lemma PieceBounds(f: nat)
      requires Ok() && Fragmented() && f < Count()
      ensures 0 <= Offset(f) < |data| <= Count() * size
      ensures Offset(f) + size > |data| <==> f == Count() - 1 && |data| < Count() * size
    {
      var n, c := |data| + size - 1, Count();
      DivMod(n, size);
      assert n == c * size + n % size;
      assert (c - 1) * size == c * size - size;
      assert (f + 1) * size == f * size + size;
      if f < c - 1 {
        MulMonotone(f + 1, c - 1, size);
      }
    }
  }

  // ---- the sender

  /** outgoingReliableSequenceNumber and outgoingUnreliableSequenceNumber after these packets. */
  function LastReliable(packets: seq<Packet>): nat { if packets == [] then 0 else packets[|packets| - 1].last }

  function LastUnreliable(packets: seq<Packet>): nat { if packets == [] then 0 else packets[|packets| - 1].unreliable }

  /** enet_peer_send's choice of a command, and the numbers the packet's commands get; size is the
      length of a fragment. */
  function NewPacket(packets: seq<Packet>, data: seq<byte>, reliable: bool, unreliableFragment: bool, size: nat): Packet {
    var n, u := LastReliable(packets), LastUnreliable(packets);
    if |data| > size && size > 0 then
      if !reliable && unreliableFragment && u < SPACE - 1 then Packet(SendUnreliableFragment, n, n, u + 1, data, size)
      else Packet(SendFragment, n + 1, n + (|data| + size - 1) / size, 0, data, size)
    else if reliable || u >= SPACE - 1 then Packet(SendReliable, n + 1, n + 1, 0, data, size)
    else Packet(SendUnreliable, n, n, u + 1, data, size)
  }

  /** Each packet's numbers continue those before it. */
  ghost predicate Follows(before: seq<Packet>, p: Packet) {
    && p.Ok()
    && (p.Reliable() ==> p.first == LastReliable(before) + 1)
    && (!p.Reliable() ==> p.first == LastReliable(before) && p.unreliable == LastUnreliable(before) + 1)
  }

  lemma NewPacketFollows(packets: seq<Packet>, data: seq<byte>, reliable: bool, unreliableFragment: bool, size: nat)
    requires 0 < size
    ensures Follows(packets, NewPacket(packets, data, reliable, unreliableFragment, size))
  {
    var p := NewPacket(packets, data, reliable, unreliableFragment, size);
    if p.Fragmented() {
      var n := |data| + size - 1;
      MulMonotone(1, size, n + 1);
      QuotientBetween(n, size, 1, n + 1);
    }
  }

  /** The data of the first n fragments. */
  function Joined(p: Packet, n: nat): seq<byte>
    requires p.Ok() && p.Fragmented() && n <= p.Count()
  {
    if n == 0 then [] else Joined(p, n - 1) + p.Piece(n - 1)
  }

  /** Where the first n fragments end. */
  function Reach(p: Packet, n: nat): (x: nat)
    requires p.Ok() && p.Fragmented() && n <= p.Count()
    ensures x <= |p.data|
  {
    if n < p.Count() then
      p.PieceBounds(n);
      p.Offset(n)
    else |p.data|
  }

  lemma StartsAtZero(p: Packet)
    requires p.Ok() && p.Fragmented() && p.Count() > 0
    ensures Reach(p, 0) == 0
  {
  }

  lemma PieceReaches(p: Packet, f: nat)
    requires p.Ok() && p.Fragmented() && f < p.Count()
    ensures p.Offset(f) == Reach(p, f) < Reach(p, f + 1) && p.Piece(f) == p.data[Reach(p, f)..Reach(p, f + 1)]
  {
    p.PieceBounds(f);
    assert (f + 1) * p.size == f * p.size + p.size;
    if f + 1 < p.Count() {
      p.PieceBounds(f + 1);
    }
  }

  lemma SomePieces(p: Packet)
    requires p.Ok() && p.Fragmented()
    ensures 1 <= p.Count() == p.Pieces()
  {
    var n := |p.data| + p.size - 1;
    MulMonotone(1, p.size, n + 1);
    QuotientBetween(n, p.size, 1, n + 1);
  }

  /** The fragments of a packet cut its data into consecutive pieces, none empty, and leave nothing out. */
  lemma {:induction false} FragmentsPartition(p: Packet, n: nat)
    requires p.Ok() && p.Fragmented() && n <= p.Count()
    ensures Joined(p, n) == p.data[..Reach(p, n)]
    ensures n > 0 ==> |p.Piece(n - 1)| > 0
    ensures n == p.Count() ==> Joined(p, n) == p.data
  {
    hide Packet.Ok, Packet.Piece, Packet.Count, Packet.Offset;
    SomePieces(p);
    StartsAtZero(p);
    if n > 0 {
      FragmentsPartition(p, n - 1);
      PieceReaches(p, n - 1);
    }
  }

  ghost predicate History(packets: seq<Packet>) {
    forall k :: 0 <= k < |packets| ==> Follows(packets[..k], packets[k])
  }

  /** The sent but unacknowledged commands whose 16-bit number is in window w: channel->reliableWindows[w]. */
  function InFlight(unacked: set<nat>, w: nat): set<nat> {
    set j | j in unacked && Num(j) / WINDOW_SIZE == w
  }

  /** The test before the first sending of a command (windowWrap): at the start of a window, the
      window before is full, or one of the next ten is still in use. */
  predicate WindowWraps(unacked: set<nat>, n: uint16) {
    var w := n / WINDOW_SIZE;
    && n % WINDOW_SIZE == 0
    && (|InFlight(unacked, (w + WINDOWS - 1) % WINDOWS)| >= WINDOW_SIZE
        || exists v | 0 <= v < WINDOWS && (v + WINDOWS - w) % WINDOWS < FREE_WINDOWS + 2 :: InFlight(unacked, v) != {})
  }

  lemma WindowStarts(n: nat)
    requires n > 0 && n % WINDOW_SIZE == 0
    ensures Num(n) % WINDOW_SIZE == 0 && Win(n) == Win(n - 1) + 1
    ensures (Num(n) / WINDOW_SIZE + WINDOWS - 1) % WINDOWS == (Win(n) - 1) % WINDOWS
  {
    NumWin(n);
  }

  /** A command seven windows back lies in the last of the ten windows that the test looks at. */
  lemma OldestWindow(unacked: set<nat>, n: nat, j: nat)
    requires j in unacked && Win(n) == Win(j) + FREE_WINDOWS - 1
    ensures var u := Num(j) / WINDOW_SIZE;
      u < WINDOWS && (u + WINDOWS - Num(n) / WINDOW_SIZE) % WINDOWS < FREE_WINDOWS + 2 && j in InFlight(unacked, u)
  {
    NumWin(j);
    NumWin(n);
  }

  // ---- the data in flight

  /** The lengths of a packet's commands, if they are reliable, in the order of their numbers. */
  function PieceLengths(p: Packet): (lengths: seq<nat>)
    ensures |lengths| == if p.Reliable() then p.Pieces() else 0
    ensures forall f :: 0 <= f < |lengths| ==> lengths[f] == p.Length(f)
  {
    seq(if p.Reliable() then p.Pieces() else 0, f requires 0 <= f => p.Length(f))
  }

  /** The lengths of all reliable commands; the first one has the number 1. */
  function Lengths(packets: seq<Packet>): seq<nat> {
    if packets == [] then [] else Lengths(packets[..|packets| - 1]) + PieceLengths(packets[|packets| - 1])
  }

  /** The bytes of the commands in u, of those that have the numbers behind base and these lengths. */
  function InTransit(lengths: seq<nat>, base: nat, u: set<nat>): nat {
    if lengths == [] then 0
    else
      var n := |lengths| - 1;
      InTransit(lengths[..n], base, u) + if base + n + 1 in u then lengths[n] else 0
  }

  lemma {:induction false} InTransitJoin(a: seq<nat>, b: seq<nat>, base: nat, u: set<nat>)
    ensures InTransit(a + b, base, u) == InTransit(a, base, u) + InTransit(b, base + |a|, u)
    decreases |b|
  {
    if b == [] {
      assert a + b == a;
    } else {
      InTransitJoin(a, b[..|b| - 1], base, u);
      assert (a + b)[..|a + b| - 1] == a + b[..|b| - 1];
    }
  }

  /** Only the numbers behind base, as many as there are lengths, matter. */
  lemma {:induction false} InTransitWithin(lengths: seq<nat>, base: nat, u: set<nat>, v: set<nat>)
    requires forall i :: base < i <= base + |lengths| && i in u ==> i in v
    ensures InTransit(lengths, base, u) <= InTransit(lengths, base, v)
  {
    if lengths != [] {
      InTransitWithin(lengths[..|lengths| - 1], base, u, v);
    }
  }

  lemma {:induction false} InTransitOf(lengths: seq<nat>, base: nat, u: set<nat>, i: nat)
    requires base < i <= base + |lengths| && i in u
    ensures lengths[i - base - 1] <= InTransit(lengths, base, u)
  {
    var n := |lengths| - 1;
    if i <= base + n {
      InTransitOf(lengths[..n], base, u, i);
    }
  }

  lemma {:induction false} InTransitOne(lengths: seq<nat>, base: nat, i: nat)
    ensures InTransit(lengths, base, {i}) == if base < i <= base + |lengths| then lengths[i - base - 1] else 0
  {
    if lengths != [] {
      InTransitOne(lengths[..|lengths| - 1], base, i);
    }
  }

  lemma NoneInTransit(lengths: seq<nat>, base: nat, u: set<nat>)
    requires forall i :: i in u ==> !(base < i <= base + |lengths|)
    ensures InTransit(lengths, base, u) == 0
  {
    InTransitWithin(lengths, base, u, {});
    InTransitNone(lengths, base);
  }

  lemma {:induction false} InTransitNone(lengths: seq<nat>, base: nat)
    ensures InTransit(lengths, base, {}) == 0
  {
    if lengths != [] {
      InTransitNone(lengths[..|lengths| - 1], base);
    }
  }

  lemma {:induction false} InTransitBoth(lengths: seq<nat>, base: nat, u: set<nat>, v: set<nat>)
    ensures InTransit(lengths, base, u + v) <= InTransit(lengths, base, u) + InTransit(lengths, base, v)
  {
    if lengths != [] {
      InTransitBoth(lengths[..|lengths| - 1], base, u, v);
    }
  }

  // ---- the run

  /** sent: the commands 1..sent were sent at least once. unacked: of these, the ones still kept for
      retransmission. acks: the numbers the receiver ever acknowledged. out: what it dispatched. */
  datatype State = State(packets: seq<Packet>, sent: nat, unacked: set<nat>, acks: set<nat>,
                         channel: Channel, out: seq<Incoming>)

  function Start(): State { State([], 0, {}, {}, NEW_CHANNEL, []) }

  datatype Step =
    | Send(data: seq<byte>, reliable: bool, unreliableFragment: bool, size: nat)
    | FirstSend(limit: nat)
    | Deliver(tag: nat, piece: nat, room: bool, maximumPacketSize: nat)
    | DeliverAck(number: nat, found: nat)

  /** The lifetime of datagrams, in windows: how far the newest command sent may have moved on beyond the
      first number of a packet. DatagramLifetime shows that it cannot be longer. */
  const OLDEST := FREE_WINDOWS + 1

  predicate Fresh(s: State, p: Packet) { Win(s.sent) <= Win(p.first) + OLDEST }

  /** The largest windowSize of a peer, and so the most reliable data that is ever in flight. */
  const MAXIMUM_WINDOW_SIZE: nat := 0x1_0000

  ghost predicate Next(s: State, step: Step, t: State) {
    match step
    case Send(data, reliable, unreliableFragment, size) =>
      && 0 < size && NewPacket(s.packets, data, reliable, unreliableFragment, size).Count() <= MAXIMUM_FRAGMENT_COUNT
      && t == s.(packets := s.packets + [NewPacket(s.packets, data, reliable, unreliableFragment, size)])
    case FirstSend(limit) =>
      && s.sent < LastReliable(s.packets) && !WindowWraps(s.unacked, Num(s.sent + 1))
      // what is not acknowledged is in flight again whenever a command is sent for the first time
      && InTransit(Lengths(s.packets), 0, s.unacked + {s.sent + 1}) <= limit <= MAXIMUM_WINDOW_SIZE
      && t == s.(sent := s.sent + 1, unacked := s.unacked + {s.sent + 1})
    case Deliver(tag, piece, room, maximumPacketSize) =>
      && tag < |s.packets| && piece < s.packets[tag].Pieces()
      && (s.packets[tag].Reliable() ==> Fresh(s, s.packets[tag]) && s.packets[tag].first + piece <= s.sent)
      // the side conditions of Wire and Receive; the invariant shows that they always hold
      && (s.packets[tag].Ok() && BitsOk(s.channel.reliables) && BitsOk(s.channel.unreliables) ==>
         var c := s.packets[tag].Wire(tag, piece);
         var r := Receive(s.channel, c, room, maximumPacketSize);
         t == s.(channel := r.channel, out := s.out + r.out,
                 acks := if Acknowledges(r, c) then s.acks + {s.packets[tag].first + piece} else s.acks))
    case DeliverAck(number, found) =>
      && number in s.acks && s.sent < number + SPACE
      // remove_sent_reliable_command: some command with this 16-bit number, if there is one
      && if exists j :: j in s.unacked && Num(j) == Num(number)
         then found in s.unacked && Num(found) == Num(number) && t == s.(unacked := s.unacked - {found})
         else t == s
  }

  /** Nothing is assumed of the datagrams that bring unreliable packets. */
  ghost predicate Run(states: seq<State>, steps: seq<Step>) {
    && |states| == |steps| + 1 && states[0] == Start()
    && forall k :: 0 <= k < |steps| ==> Next(states[k], steps[k], states[k + 1])
  }

  /** How far the reliable number that an unreliable packet names may lie beyond the newest command sent,
      for the two to arrive in their order. */
  const FARTHEST := FREE_WINDOWS

  predicate Timely(s: State, step: Step) {
    step.Deliver? && step.tag < |s.packets| && !s.packets[step.tag].Reliable() ==>
      Fresh(s, s.packets[step.tag]) && Win(s.packets[step.tag].first) <= Win(s.sent) + FARTHEST
  }

  /** A run in which unreliable packets are timely, too. */
  ghost predicate TimelyRun(states: seq<State>, steps: seq<Step>) {
    Run(states, steps) && forall k :: 0 <= k < |steps| ==> Timely(states[k], steps[k])
  }
}
