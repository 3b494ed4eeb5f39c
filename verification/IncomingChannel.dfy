/** The receiving half of an ENet channel: what peer.c and protocol.c do with one command, as
    functions on values. Numbers are the 16-bit ones of the wire. */
module IncomingChannel {
  import opened Words
  import opened SequenceNumbers

  datatype Kind = SendReliable | SendFragment | SendUnreliable | SendUnreliableFragment

  const MAXIMUM_FRAGMENT_COUNT := 1024 * 1024

  /** A command as received. start is the fragment's start number or the unreliable number, which are
      the same two bytes of a command. tag names the packet in the sender's history: it is carried
      along for the statement of the theorems and never looked at. */
  datatype Command = Command(kind: Kind, tag: nat, reliable: uint16, start: uint16,
                             count: nat, fragment: nat, offset: nat, total: nat, data: seq<byte>)

  /** ENetIncomingCommand with its packet. */
  datatype Incoming = Incoming(kind: Kind, tag: nat, reliable: uint16, unreliable: uint16,
                               count: nat, remaining: nat, got: seq<bool>, packet: seq<byte>)

  datatype Channel = Channel(incoming: uint16, unreliable: uint16, reliables: seq<Incoming>, unreliables: seq<Incoming>)

  const NEW_CHANNEL := Channel(0, 0, [], [])

  /** ok is false where the source abandons the datagram without an acknowledgement. */
  datatype Result = Result(ok: bool, channel: Channel, out: seq<Incoming>)

  // ---- the queue of reliable commands

  datatype Search = At(index: nat) | Before(index: nat)

  /** The backward walk of enet_peer_queue_incoming_command (and of handle_send_fragment) through the
      first k entries: the entry with number n, or the place where it would be inserted. */
  function SearchReliable(q: seq<Incoming>, n: uint16, incoming: uint16, k: nat): (r: Search)
    requires k <= |q|
    ensures r.index <= |q| && (r.At? ==> r.index < k)
  {
    if k == 0 then Before(0)
    else
      var e := q[k - 1];
      if n >= incoming && e.reliable < incoming then SearchReliable(q, n, incoming, k - 1)
      else if n < incoming && e.reliable >= incoming then Before(k)
      else if e.reliable < n then Before(k)
      else if e.reliable == n then At(k - 1)
      else SearchReliable(q, n, incoming, k - 1)
  }

  function Insert(q: seq<Incoming>, i: nat, e: Incoming): (r: seq<Incoming>)
    requires i <= |q|
  {
    q[..i] + [e] + q[i..]
  }

  /** The number of the last command of an entry's packet. */
  function LastNumber(e: Incoming): (n: uint16) {
    if e.count > 0 then (e.reliable + e.count - 1) % SPACE else e.reliable
  }

  /** How many entries at the front are complete and next in number. */
  function ReadyCount(q: seq<Incoming>, incoming: uint16): (k: nat)
    ensures k <= |q|
  {
    if q == [] || q[0].remaining > 0 || q[0].reliable != (incoming + 1) % SPACE then 0
    else 1 + ReadyCount(q[1..], LastNumber(q[0]))
  }

  function ReadyNumber(q: seq<Incoming>, incoming: uint16): (n: uint16) {
    if q == [] || q[0].remaining > 0 || q[0].reliable != (incoming + 1) % SPACE then incoming
    else ReadyNumber(q[1..], LastNumber(q[0]))
  }

  /** enet_peer_dispatch_incoming_reliable_commands */
  function DispatchReliable(c: Channel): (Channel, seq<Incoming>) {
    var k := ReadyCount(c.reliables, c.incoming);
    if k == 0 then (c, [])
    else
      var d := c.(incoming := ReadyNumber(c.reliables, c.incoming), unreliable := 0, reliables := c.reliables[k..]);
      var r := DispatchUnreliable(d, -1);
      (r.0, c.reliables[..k] + r.1)
  }

  // ---- the queue of unreliable commands

  /** The state of the walk in enet_peer_dispatch_incoming_unreliable_commands over the entries as
      they were at its start: moved are those already dispatched, stays the indices passed over. */
  datatype Scan = Scan(current: nat, start: nat, dropped: nat, unreliable: uint16, moved: seq<Incoming>, stays: seq<nat>)

  ghost predicate ScanOk(q: seq<Incoming>, s: Scan) {
    && s.start <= s.current <= |q| && s.dropped <= s.current
    && forall k :: 0 <= k < |s.stays| ==> s.stays[k] < s.current
  }

  /** enet_list_move of the entries from start up to the current one. */
  function Flush(q: seq<Incoming>, s: Scan): (t: Scan)
    requires s.start <= s.current <= |q|
  {
    s.(moved := s.moved + q[s.start..s.current])
  }

  function PassOver(s: Scan): Scan {
    s.(current := s.current + 1, start := s.current + 1, stays := s.stays + [s.current])
  }

  /** One turn of the walk; the walk ends at an entry of a later reliable number. */
  function ScanTurn(q: seq<Incoming>, incoming: uint16, s: Scan): (t: Scan)
    requires ScanOk(q, s) && s.current < |q|
    requires q[s.current].reliable == incoming || !InWindow(q[s.current].reliable, incoming)
    ensures ScanOk(q, t) && t.current == s.current + 1
  {
    var e := q[s.current];
    if e.reliable == incoming then
      if e.remaining == 0 then s.(current := s.current + 1, unreliable := e.unreliable)
      else if s.start != s.current then PassOver(Flush(q, s).(dropped := s.current))
      else if s.dropped != s.current then PassOver(s.(dropped := s.current - 1))
      else PassOver(s)
    else PassOver((if s.start != s.current then Flush(q, s) else s).(dropped := s.current + 1))
  }

  function ScanAll(q: seq<Incoming>, incoming: uint16, s: Scan): (t: Scan)
    requires ScanOk(q, s)
    ensures ScanOk(q, t)
    decreases |q| - s.current
  {
    if s.current == |q| || (q[s.current].reliable != incoming && InWindow(q[s.current].reliable, incoming)) then s
    else ScanAll(q, incoming, ScanTurn(q, incoming, s))
  }

  /** The entries passed over that are not removed. */
  function Kept(q: seq<Incoming>, stays: seq<nat>, dropped: nat, queued: int): seq<Incoming>
    requires forall k :: 0 <= k < |stays| ==> stays[k] < |q|
  {
    if stays == [] then []
    else
      (if stays[0] >= dropped || stays[0] == queued then [q[stays[0]]] else []) + Kept(q, stays[1..], dropped, queued)
  }

  /** The walk and the last move. */
  function WholeWalk(c: Channel): (t: Scan)
    ensures ScanOk(c.unreliables, t)
  {
    var s := ScanAll(c.unreliables, c.incoming, Scan(0, 0, 0, c.unreliable, [], []));
    if s.start != s.current then Flush(c.unreliables, s).(dropped := s.current) else s
  }

  /** enet_peer_dispatch_incoming_unreliable_commands; queued is the index of the entry that must not
      be removed, or -1. */
  function DispatchUnreliable(c: Channel, queued: int): (Channel, seq<Incoming>) {
    var q, t := c.unreliables, WholeWalk(c);
    (c.(unreliable := t.unreliable, unreliables := Kept(q, t.stays, t.dropped, queued) + q[t.current..]), t.moved)
  }

  /** How many of the entries passed over are kept before entry queued. */
  function KeptBefore(stays: seq<nat>, dropped: nat, queued: nat): (n: nat) {
    if stays == [] || stays[0] == queued then 0
    else (if stays[0] >= dropped then 1 else 0) + KeptBefore(stays[1..], dropped, queued)
  }

  /** Where entry queued stands after the dispatch. */
  function PlaceOf(c: Channel, queued: nat): nat {
    var t := WholeWalk(c);
    if queued < t.current then KeptBefore(t.stays, t.dropped, queued)
    else |Kept(c.unreliables, t.stays, t.dropped, queued)| + (queued - t.current)
  }

  /** The backward walk through the unreliable commands. */
  function SearchUnreliable(q: seq<Incoming>, n: uint16, u: uint16, incoming: uint16, k: nat): (r: Search)
    requires k <= |q|
    ensures r.index <= |q| && (r.At? ==> r.index < k)
  {
    if k == 0 then Before(0)
    else
      var e := q[k - 1];
      if n >= incoming && e.reliable < incoming then SearchUnreliable(q, n, u, incoming, k - 1)
      else if n < incoming && e.reliable >= incoming then Before(k)
      else if e.reliable < n then Before(k)
      else if e.reliable > n then SearchUnreliable(q, n, u, incoming, k - 1)
      else if e.unreliable < u then Before(k)
      else if e.unreliable == u then At(k - 1)
      else SearchUnreliable(q, n, u, incoming, k - 1)
  }

  // ---- the handlers

  function NewIncoming(c: Command, reliable: uint16, unreliable: uint16): Incoming {
    match c.kind
    case SendReliable => Incoming(c.kind, c.tag, reliable, 0, 0, 0, [], c.data)
    case SendUnreliable => Incoming(c.kind, c.tag, reliable, unreliable, 0, 0, [], c.data)
    case _ => Incoming(c.kind, c.tag, reliable, unreliable, c.count, c.count, seq(c.count, _ => false), seq(c.total, _ => 0))
  }

  /** enet_protocol_handle_send_reliable; room is false when too much data is waiting already. */
  function ReceiveReliable(ch: Channel, c: Command, room: bool): Result {
    var place := SearchReliable(ch.reliables, c.reliable, ch.incoming, |ch.reliables|);
    if !InWindow(c.reliable, ch.incoming) || c.reliable == ch.incoming || place.At? then Result(true, ch, [])
    else if !room then Result(false, ch, [])
    else
      var d := DispatchReliable(ch.(reliables := Insert(ch.reliables, place.index, NewIncoming(c, c.reliable, 0))));
      Result(true, d.0, d.1)
  }

  /** The fields of a fragment that the source checks. */
  predicate FragmentFits(c: Command, maximumPacketSize: nat) {
    && c.count <= MAXIMUM_FRAGMENT_COUNT && c.fragment < c.count
    && c.total <= maximumPacketSize && c.offset < c.total && |c.data| <= c.total - c.offset
  }

  predicate SamePacket(e: Incoming, c: Command) {
    e.kind == c.kind && |e.packet| == c.total && e.count == c.count
  }

  /** Marks a fragment as received and copies its data. */
  function AddFragment(e: Incoming, c: Command): (r: Incoming)
    requires c.fragment < |e.got| && c.offset + |c.data| <= |e.packet|
    ensures |r.packet| == |e.packet| && |r.got| == |e.got|
  {
    e.(remaining := if e.remaining > 0 then e.remaining - 1 else 0, got := e.got[c.fragment := true],
       packet := e.packet[..c.offset] + c.data + e.packet[c.offset + |c.data|..])
  }

  /** One bit per fragment. */
  ghost predicate BitsOk(q: seq<Incoming>) {
    forall k :: 0 <= k < |q| ==> |q[k].got| == q[k].count
  }

  /** enet_protocol_handle_send_fragment */
  function ReceiveFragment(ch: Channel, c: Command, room: bool, maximumPacketSize: nat): Result
    requires BitsOk(ch.reliables) && c.kind == SendFragment
  {
    var place := SearchReliable(ch.reliables, c.start, ch.incoming, |ch.reliables|);
    if !InWindow(c.start, ch.incoming) then Result(true, ch, [])
    else if !FragmentFits(c, maximumPacketSize) then Result(false, ch, [])
    else if place.At? then
      if SamePacket(ch.reliables[place.index], c) then TakeFragment(ch, place.index, c, []) else Result(false, ch, [])
    else if c.start == ch.incoming || !room then Result(false, ch, [])
    else QueueFragment(ch, place.index, c)
  }

  /** The first fragment of a packet: its entry is queued, which dispatches, and then takes the fragment. */
  function QueueFragment(ch: Channel, i: nat, c: Command): Result
    requires BitsOk(ch.reliables) && c.kind == SendFragment && i <= |ch.reliables|
    requires c.fragment < c.count && c.offset + |c.data| <= c.total
  {
    var q := Insert(ch.reliables, i, NewIncoming(c, c.start, 0));
    DispatchStops(q, ch.incoming, i);
    var d := DispatchReliable(ch.(reliables := q));
    TakeFragment(d.0, i - ReadyCount(q, ch.incoming), c, d.1)
  }

  function TakeFragment(ch: Channel, i: nat, c: Command, out: seq<Incoming>): Result
    requires BitsOk(ch.reliables) && i < |ch.reliables| && SamePacket(ch.reliables[i], c)
    requires c.fragment < c.count && c.offset + |c.data| <= c.total
  {
    var e := ch.reliables[i];
    if e.got[c.fragment] then Result(true, ch, out)
    else
      var f := AddFragment(e, c);
      var next := ch.(reliables := ch.reliables[i := f]);
      if f.remaining > 0 then Result(true, next, out)
      else
        var d := DispatchReliable(next);
        Result(true, d.0, out + d.1)
  }

  /** enet_protocol_handle_send_unreliable */
  function ReceiveUnreliable(ch: Channel, c: Command, room: bool): Result {
    var place := SearchUnreliable(ch.unreliables, c.reliable, c.start, ch.incoming, |ch.unreliables|);
    if !InWindow(c.reliable, ch.incoming) || (c.reliable == ch.incoming && c.start <= ch.unreliable) || place.At? then
      Result(true, ch, [])
    else if !room then Result(false, ch, [])
    else
      var d := DispatchUnreliable(ch.(unreliables := Insert(ch.unreliables, place.index, NewIncoming(c, c.reliable, c.start))),
                                  place.index);
      Result(true, d.0, d.1)
  }

  /** enet_protocol_handle_send_unreliable_fragment */
  function ReceiveUnreliableFragment(ch: Channel, c: Command, room: bool, maximumPacketSize: nat): Result
    requires BitsOk(ch.unreliables) && c.kind == SendUnreliableFragment
  {
    var place := SearchUnreliable(ch.unreliables, c.reliable, c.start, ch.incoming, |ch.unreliables|);
    if !InWindow(c.reliable, ch.incoming) || (c.reliable == ch.incoming && c.start <= ch.unreliable) then Result(true, ch, [])
    else if !FragmentFits(c, maximumPacketSize) then Result(false, ch, [])
    else if place.At? then
      if SamePacket(ch.unreliables[place.index], c) then TakeUnreliableFragment(ch, place.index, c, []) else Result(false, ch, [])
    else if !room then Result(false, ch, [])
    else QueueUnreliableFragment(ch, place.index, c)
  }

  /** The new entry may be passed over by the walk, but it is not removed, and takes the fragment. */
  function QueueUnreliableFragment(ch: Channel, i: nat, c: Command): Result
    requires i <= |ch.unreliables| && c.kind == SendUnreliableFragment && c.fragment < c.count && c.offset + |c.data| <= c.total
  {
    var next := ch.(unreliables := Insert(ch.unreliables, i, NewIncoming(c, c.reliable, c.start)));
    QueuedStays(next, i);
    var d := DispatchUnreliable(next, i);
    TakeUnreliableFragment(d.0, PlaceOf(next, i), c, d.1)
  }

  function TakeUnreliableFragment(ch: Channel, i: nat, c: Command, out: seq<Incoming>): Result
    requires i < |ch.unreliables| && SamePacket(ch.unreliables[i], c) && |ch.unreliables[i].got| == c.count
    requires c.fragment < c.count && c.offset + |c.data| <= c.total
  {
    var e := ch.unreliables[i];
    if e.got[c.fragment] then Result(true, ch, out)
    else
      var f := AddFragment(e, c);
      var next := ch.(unreliables := ch.unreliables[i := f]);
      if f.remaining > 0 then Result(true, next, out)
      else
        var d := DispatchUnreliable(next, -1);
        Result(true, d.0, out + d.1)
  }

  /** One command of a datagram, and whether it is acknowledged. */
  function Receive(ch: Channel, c: Command, room: bool, maximumPacketSize: nat): Result
    requires BitsOk(ch.reliables) && BitsOk(ch.unreliables)
  {
    if |c.data| > maximumPacketSize then Result(false, ch, [])
    else
      match c.kind
      case SendReliable => ReceiveReliable(ch, c, room)
      case SendFragment => ReceiveFragment(ch, c, room, maximumPacketSize)
      case SendUnreliable => ReceiveUnreliable(ch, c, room)
      case SendUnreliableFragment => ReceiveUnreliableFragment(ch, c, room, maximumPacketSize)
  }

  predicate Acknowledges(r: Result, c: Command) {
    r.ok && (c.kind == SendReliable || c.kind == SendFragment) && Acknowledged(c.reliable, r.channel.incoming)
  }

  /** A fragment that cannot be a piece of a packet of these sizes. */
  predicate Malformed(c: Command, maximumPacketSize: nat) {
    c.count > 1048576 || c.fragment >= c.count || c.total > maximumPacketSize || c.offset + |c.data| > c.total || c.offset == c.total
  }

  /** Which commands are refused, so that the datagram is given up: those with too much data; what is new, in the
      window, and finds no room; and fragments that are malformed, contradict what is queued under their number, or
      begin with the number that was dispatched last. A refusal changes nothing. */
  lemma RefusedIs(ch: Channel, c: Command, room: bool, maximumPacketSize: nat)
    requires BitsOk(ch.reliables) && BitsOk(ch.unreliables)
    ensures var r := Receive(ch, c, room, maximumPacketSize);
      var place := if c.kind == SendReliable || c.kind == SendFragment
        then SearchReliable(ch.reliables, if c.kind == SendFragment then c.start else c.reliable, ch.incoming, |ch.reliables|)
        else SearchUnreliable(ch.unreliables, c.reliable, c.start, ch.incoming, |ch.unreliables|);
      var queue := if c.kind == SendReliable || c.kind == SendFragment then ch.reliables else ch.unreliables;
      var number := if c.kind == SendFragment then c.start else c.reliable;
      var done := if c.kind == SendReliable then number == ch.incoming
                  else c.kind != SendFragment && number == ch.incoming && c.start <= ch.unreliable;
      var fragment := c.kind == SendFragment || c.kind == SendUnreliableFragment;
      && (!r.ok <==>
          || |c.data| > maximumPacketSize
          || (InWindow(number, ch.incoming) && !done &&
              if fragment && Malformed(c, maximumPacketSize) then true
              else if place.At? then
                var e := queue[place.index];
                fragment && (e.kind != c.kind || |e.packet| != c.total || e.count != c.count)
              else !room || (c.kind == SendFragment && c.start == ch.incoming)))
      && (!r.ok ==> r.channel == ch && r.out == [])
  {
    hide InWindow, SearchReliable, SearchUnreliable, DispatchReliable, DispatchUnreliable, AddFragment, PlaceOf, ReadyCount, Insert, NewIncoming;
    match c.kind
    case SendReliable =>
    case SendUnreliable =>
    case SendFragment => FragmentRefused(ch, c, room, maximumPacketSize);
    case SendUnreliableFragment => UnreliableFragmentRefused(ch, c, room, maximumPacketSize);
  }

  lemma FragmentRefused(ch: Channel, c: Command, room: bool, maximumPacketSize: nat)
    requires BitsOk(ch.reliables) && c.kind == SendFragment
    ensures var r := ReceiveFragment(ch, c, room, maximumPacketSize);
      var place := SearchReliable(ch.reliables, c.start, ch.incoming, |ch.reliables|);
      && (!r.ok <==>
          && InWindow(c.start, ch.incoming)
          && if Malformed(c, maximumPacketSize) then true
             else if place.At? then !SamePacket(ch.reliables[place.index], c)
             else c.start == ch.incoming || !room)
      && (!r.ok ==> r.channel == ch && r.out == [])
  {
    hide InWindow, SearchReliable, DispatchReliable, AddFragment, ReadyCount, Insert, NewIncoming;
  }

  lemma UnreliableFragmentRefused(ch: Channel, c: Command, room: bool, maximumPacketSize: nat)
    requires BitsOk(ch.unreliables) && c.kind == SendUnreliableFragment
    ensures var r := ReceiveUnreliableFragment(ch, c, room, maximumPacketSize);
      var place := SearchUnreliable(ch.unreliables, c.reliable, c.start, ch.incoming, |ch.unreliables|);
      && (!r.ok <==>
          && InWindow(c.reliable, ch.incoming) && !(c.reliable == ch.incoming && c.start <= ch.unreliable)
          && if Malformed(c, maximumPacketSize) then true
             else if place.At? then !SamePacket(ch.unreliables[place.index], c)
             else !room)
      && (!r.ok ==> r.channel == ch && r.out == [])
  {
    hide InWindow, SearchUnreliable, DispatchUnreliable, AddFragment, PlaceOf, Insert, NewIncoming;
  }

  // ---- what the functions above need of each other

  lemma {:induction false} DispatchStops(q: seq<Incoming>, incoming: uint16, i: nat)
    requires i < |q| && q[i].remaining > 0
    ensures ReadyCount(q, incoming) <= i
    decreases |q|
  {
    if i > 0 && ReadyCount(q, incoming) > 0 {
      DispatchStops(q[1..], LastNumber(q[0]), i - 1);
    }
  }

  lemma {:induction false} ScanPassesOver(q: seq<Incoming>, incoming: uint16, s: Scan, i: nat)
    requires ScanOk(q, s) && i < |q| && q[i].remaining > 0 && (i < s.current ==> i in s.stays)
    ensures i < ScanAll(q, incoming, s).current ==> i in ScanAll(q, incoming, s).stays
    decreases |q| - s.current
  {
    hide InWindow;
    if s.current < |q| && (q[s.current].reliable == incoming || !InWindow(q[s.current].reliable, incoming)) {
      ScanPassesOver(q, incoming, ScanTurn(q, incoming, s), i);
    }
  }

  lemma {:induction false} KeptHas(q: seq<Incoming>, stays: seq<nat>, dropped: nat, i: nat)
    requires (forall k :: 0 <= k < |stays| ==> stays[k] < |q|) && i < |q| && i in stays
    ensures var k, kept := KeptBefore(stays, dropped, i), Kept(q, stays, dropped, i);
      k < |kept| && kept[k] == q[i]
  {
    if stays[0] != i {
      KeptHas(q, stays[1..], dropped, i);
    }
  }

  /** The entry that a handler has just queued survives the dispatch: no pointer to it dangles. */
  lemma QueuedStays(c: Channel, i: nat)
    requires i < |c.unreliables| && c.unreliables[i].remaining > 0
    ensures var k, d := PlaceOf(c, i), DispatchUnreliable(c, i).0;
      k < |d.unreliables| && d.unreliables[k] == c.unreliables[i]
  {
    hide ScanAll, Kept, KeptBefore;
    var q, t := c.unreliables, WholeWalk(c);
    ScanPassesOver(q, c.incoming, Scan(0, 0, 0, c.unreliable, [], []), i);
    if i < t.current {
      KeptHas(q, t.stays, t.dropped, i);
    }
  }

  lemma DispatchedQueue(c: Channel)
    ensures DispatchReliable(c).0.reliables == c.reliables[ReadyCount(c.reliables, c.incoming)..]
  {
  }

  /** A new entry stays in the queue: its first fragment is still missing. */
  lemma NewEntryStays(ch: Channel, q: seq<Incoming>, j: nat)
    requires j < |q| && q[j].remaining > 0
    ensures var n, d := ReadyCount(q, ch.incoming), DispatchReliable(ch.(reliables := q)).0;
      n <= j && j - n < |d.reliables| && d.reliables[j - n] == q[j]
  {
    DispatchStops(q, ch.incoming, j);
    DispatchedQueue(ch.(reliables := q));
  }

  lemma TakeFragmentAppends(ch: Channel, k: nat, c: Command, out: seq<Incoming>)
    requires BitsOk(ch.reliables) && k < |ch.reliables| && SamePacket(ch.reliables[k], c)
    requires c.fragment < c.count && c.offset + |c.data| <= c.total
    ensures var t, u := TakeFragment(ch, k, c, []), TakeFragment(ch, k, c, out);
      t.ok && u == Result(true, t.channel, out + t.out)
  {
    hide DispatchReliable, AddFragment;
  }

  lemma TakeUnreliableAppends(ch: Channel, k: nat, c: Command, out: seq<Incoming>)
    requires c.fragment < c.count && c.offset + |c.data| <= c.total && k < |ch.unreliables|
    requires SamePacket(ch.unreliables[k], c) && |ch.unreliables[k].got| == c.count
    ensures var t, u := TakeUnreliableFragment(ch, k, c, []), TakeUnreliableFragment(ch, k, c, out);
      t.ok && u == Result(true, t.channel, out + t.out)
  {
    hide DispatchUnreliable, AddFragment;
  }

  lemma NewIsIncomplete(c: Command, n: uint16, u: uint16)
    requires c.kind == SendFragment || c.kind == SendUnreliableFragment
    requires c.count > 0
    ensures var e := NewIncoming(c, n, u); e.remaining > 0 && |e.got| == e.count == c.count && SamePacket(e, c)
  {
  }

  lemma InsertedEntry(q: seq<Incoming>, i: nat, e: Incoming)
    requires i <= |q|
    ensures |Insert(q, i, e)| == |q| + 1 && Insert(q, i, e)[i] == e
    ensures BitsOk(q) && |e.got| == e.count ==> BitsOk(Insert(q, i, e))
  {
  }

  lemma BitsOkRest(q: seq<Incoming>, k: nat)
    requires BitsOk(q) && k <= |q|
    ensures BitsOk(q[k..])
  {
  }

  /** A packet's first fragment: the new entry is at the place that the handler kept, and takes it. */
  lemma QueueFragmentSteps(ch: Channel, i: nat, c: Command)
    requires BitsOk(ch.reliables) && c.kind == SendFragment && i <= |ch.reliables|
    requires c.fragment < c.count && c.offset + |c.data| <= c.total
    ensures var q := Insert(ch.reliables, i, NewIncoming(c, c.start, 0));
      var k, d := ReadyCount(q, ch.incoming), DispatchReliable(ch.(reliables := q));
      && k <= i && i - k < |d.0.reliables| && BitsOk(d.0.reliables) && SamePacket(d.0.reliables[i - k], c)
      && var t := TakeFragment(d.0, i - k, c, []);
      t.ok && QueueFragment(ch, i, c) == Result(true, t.channel, d.1 + t.out)
  {
    hide TakeFragment, DispatchReliable, ReadyCount, NewIncoming, SamePacket, Insert, BitsOk;
    var e := NewIncoming(c, c.start, 0);
    var q := Insert(ch.reliables, i, e);
    NewIsIncomplete(c, c.start, 0);
    InsertedEntry(ch.reliables, i, e);
    NewEntryStays(ch, q, i);
    DispatchedQueue(ch.(reliables := q));
    var k, d := ReadyCount(q, ch.incoming), DispatchReliable(ch.(reliables := q));
    BitsOkRest(q, k);
    TakeFragmentAppends(d.0, i - k, c, d.1);
  }

  lemma QueueUnreliableSteps(ch: Channel, i: nat, c: Command)
    requires i <= |ch.unreliables| && c.kind == SendUnreliableFragment && c.fragment < c.count && c.offset + |c.data| <= c.total
    ensures var next := ch.(unreliables := Insert(ch.unreliables, i, NewIncoming(c, c.reliable, c.start)));
      var k, d := PlaceOf(next, i), DispatchUnreliable(next, i);
      && i < |next.unreliables| && next.unreliables[i].remaining > 0
      && k < |d.0.unreliables| && SamePacket(d.0.unreliables[k], c) && |d.0.unreliables[k].got| == c.count
      && var t := TakeUnreliableFragment(d.0, k, c, []);
      t.ok && QueueUnreliableFragment(ch, i, c) == Result(true, t.channel, d.1 + t.out)
  {
    hide DispatchUnreliable, PlaceOf, TakeUnreliableFragment, NewIncoming, SamePacket, Insert;
    var e := NewIncoming(c, c.reliable, c.start);
    var next := ch.(unreliables := Insert(ch.unreliables, i, e));
    NewIsIncomplete(c, c.reliable, c.start);
    InsertedEntry(ch.unreliables, i, e);
    QueuedStays(next, i);
    TakeUnreliableAppends(DispatchUnreliable(next, i).0, PlaceOf(next, i), c, DispatchUnreliable(next, i).1);
  }
}
