/** What becomes of the unreliable packets that the receiver's walk removes without dispatching them. */
module UnreliableDrops {
  import opened Words
  import opened SequenceNumbers
  import opened IncomingChannel
  import opened DeliveryModel
  import opened DeliveryProof
  import opened DeliveryInvariant
  import opened DeliveryTheorems
  import opened LargePackets
  import opened Progress

  // ---- the walk leaves alone what belongs to a later reliable number

  /** The reliable number n is ahead of the channel's. */
  predicate Later(n: uint16, incoming: uint16) { n != incoming && InWindow(n, incoming) }

  lemma {:induction false} WalkPasses(q: seq<Incoming>, incoming: uint16, s: Scan)
    requires ScanOk(q, s)
    ensures var t := ScanAll(q, incoming, s); forall i :: s.current <= i < t.current ==> !Later(q[i].reliable, incoming)
    decreases |q| - s.current
  {
    hide InWindow;
    if s.current < |q| && !Later(q[s.current].reliable, incoming) {
      WalkPasses(q, incoming, ScanTurn(q, incoming, s));
    }
  }

  /** The packets that a queue has entries of, with the reliable numbers these wait for. */
  function Marks(q: seq<Incoming>): set<(nat, uint16)> {
    set i | 0 <= i < |q| :: (q[i].tag, q[i].reliable)
  }

  /** Of the entries that wait for a later number than the channel's is now, none was removed. */
  ghost predicate StillThere(ch: Channel, t: Channel) {
    forall m :: m in Marks(ch.unreliables) && Later(m.1, t.incoming) ==> m in Marks(t.unreliables)
  }

  lemma WalkStill(c: Channel, queued: int)
    ensures StillThere(c, DispatchUnreliable(c, queued).0)
  {
    hide Later, ScanAll, Kept;
    var q, t := c.unreliables, WholeWalk(c);
    WalkPasses(q, c.incoming, Scan(0, 0, 0, c.unreliable, [], []));
    var d := DispatchUnreliable(c, queued).0.unreliables;
    forall m | m in Marks(q) && Later(m.1, c.incoming) ensures m in Marks(d) {
      var i :| 0 <= i < |q| && m == (q[i].tag, q[i].reliable);
      assert q[t.current..][i - t.current] == q[i];
      assert d[|d| - |q| + i] == q[i];
    }
  }

  lemma StillFrom(ch: Channel, next: Channel, t: Channel)
    requires Marks(ch.unreliables) <= Marks(next.unreliables) && StillThere(next, t)
    ensures StillThere(ch, t)
  {
    hide Later, Marks;
  }

  lemma StillTwice(ch: Channel, m: Channel, t: Channel)
    requires StillThere(ch, m) && StillThere(m, t) && m.incoming == t.incoming
    ensures StillThere(ch, t)
  {
    hide Later, Marks;
  }

  lemma Same(ch: Channel, t: Channel)
    requires Marks(ch.unreliables) <= Marks(t.unreliables)
    ensures StillThere(ch, t)
  {
    hide Later, Marks;
  }

  /** An entry more, or a fragment more in one of them, changes nothing of that. */
  lemma InsertMarks(q: seq<Incoming>, i: nat, e: Incoming)
    requires i <= |q|
    ensures Marks(q) <= Marks(Insert(q, i, e))
  {
    forall k | 0 <= k < |q| ensures (q[k].tag, q[k].reliable) in Marks(Insert(q, i, e)) {
      assert Insert(q, i, e)[if k < i then k else k + 1] == q[k];
    }
  }

  lemma AddMarks(q: seq<Incoming>, i: nat, e: Incoming)
    requires i < |q| && e.tag == q[i].tag && e.reliable == q[i].reliable
    ensures Marks(q) <= Marks(q[i := e])
  {
    forall k | 0 <= k < |q| ensures (q[k].tag, q[k].reliable) in Marks(q[i := e]) {
      assert q[i := e][k].tag == q[k].tag && q[i := e][k].reliable == q[k].reliable;
    }
  }

  lemma TakeStill(ch: Channel, i: nat, c: Command)
    requires i < |ch.unreliables| && SamePacket(ch.unreliables[i], c) && |ch.unreliables[i].got| == c.count
    requires c.fragment < c.count && c.offset + |c.data| <= c.total
    ensures var t := TakeUnreliableFragment(ch, i, c, []).channel; StillThere(ch, t) && t.incoming == ch.incoming
  {
    hide *;
    var e := ch.unreliables[i];
    FitsEntry(e, c);
    var f := AddFragment(e, c);
    var next := ch.(unreliables := ch.unreliables[i := f]);
    Same(ch, ch);
    AddedIs(e, c);
    AddMarks(ch.unreliables, i, f);
    Same(ch, next);
    WalkStill(next, -1);
    StillFrom(ch, next, DispatchUnreliable(next, -1).0);
    DispatchKeepsReliables(next, -1);
    TakeUnreliableIs(ch, i, c);
  }

  lemma FitsEntry(e: Incoming, c: Command)
    requires SamePacket(e, c) && |e.got| == c.count && c.fragment < c.count && c.offset + |c.data| <= c.total
    ensures c.fragment < |e.got| && c.offset + |c.data| <= |e.packet|
  {
  }

  lemma AddedIs(e: Incoming, c: Command)
    requires SamePacket(e, c) && |e.got| == c.count && c.fragment < c.count && c.offset + |c.data| <= c.total
    ensures var f := AddFragment(e, c);
      f.tag == e.tag && f.reliable == e.reliable && f.unreliable == e.unreliable && f.got == e.got[c.fragment := true]
  {
  }

  lemma InsertStill(ch: Channel, i: nat, e: Incoming, queued: int)
    requires i <= |ch.unreliables|
    ensures var d := DispatchUnreliable(ch.(unreliables := Insert(ch.unreliables, i, e)), queued).0;
      StillThere(ch, d) && d.incoming == ch.incoming
  {
    hide *;
    var next := ch.(unreliables := Insert(ch.unreliables, i, e));
    InsertMarks(ch.unreliables, i, e);
    WalkStill(next, queued);
    DispatchKeepsReliables(next, queued);
    StillFrom(ch, next, DispatchUnreliable(next, queued).0);
  }

  lemma ReliablesStill(ch: Channel)
    ensures StillThere(ch, DispatchReliable(ch).0)
  {
    hide StillThere, DispatchUnreliable, Marks;
    var k := ReadyCount(ch.reliables, ch.incoming);
    Same(ch, ch);
    if k > 0 {
      var d := ch.(incoming := ReadyNumber(ch.reliables, ch.incoming), unreliable := 0, reliables := ch.reliables[k..]);
      WalkStill(d, -1);
      StillFrom(ch, d, DispatchUnreliable(d, -1).0);
    }
  }

  lemma TakeReliableStill(ch: Channel, i: nat, c: Command)
    requires BitsOk(ch.reliables) && i < |ch.reliables| && SamePacket(ch.reliables[i], c)
    requires c.fragment < c.count && c.offset + |c.data| <= c.total
    ensures StillThere(ch, TakeFragment(ch, i, c, []).channel)
  {
    hide StillThere, DispatchReliable, Marks, AddFragment;
    var next := ch.(reliables := ch.reliables[i := AddFragment(ch.reliables[i], c)]);
    Same(ch, ch);
    Same(ch, next);
    ReliablesStill(next);
    StillFrom(ch, next, DispatchReliable(next).0);
  }

  /** Where nothing is ready, a new entry with missing fragments makes nothing ready. */
  lemma NothingReady(ch: Channel, i: nat, e: Incoming)
    requires Idle(ch) && i <= |ch.reliables| && e.remaining > 0
    ensures DispatchReliable(ch.(reliables := Insert(ch.reliables, i, e))) == (ch.(reliables := Insert(ch.reliables, i, e)), [])
  {
    hide DispatchUnreliable, LastNumber;
  }

  lemma QueueReliableStill(ch: Channel, i: nat, c: Command)
    requires BitsOk(ch.reliables) && c.kind == SendFragment && i <= |ch.reliables| && Idle(ch)
    requires c.fragment < c.count && c.offset + |c.data| <= c.total
    ensures StillThere(ch, QueueFragment(ch, i, c).channel)
  {
    hide *;
    var e := NewIncoming(c, c.start, 0);
    var next := ch.(reliables := Insert(ch.reliables, i, e));
    NewIsIncomplete(c, c.start, 0);
    NothingReady(ch, i, e);
    QueueFragmentSteps(ch, i, c);
    TakeReliableStill(next, i - ReadyCount(next.reliables, ch.incoming), c);
    StillFrom(ch, next, TakeFragment(next, i - ReadyCount(next.reliables, ch.incoming), c, []).channel);
  }

  lemma QueueStill(ch: Channel, i: nat, c: Command)
    requires i <= |ch.unreliables| && c.kind == SendUnreliableFragment && c.fragment < c.count && c.offset + |c.data| <= c.total
    ensures StillThere(ch, QueueUnreliableFragment(ch, i, c).channel)
  {
    hide *;
    var e := NewIncoming(c, c.reliable, c.start);
    var next := ch.(unreliables := Insert(ch.unreliables, i, e));
    QueueUnreliableSteps(ch, i, c);
    InsertStill(ch, i, e, i);
    var d, k := DispatchUnreliable(next, i).0, PlaceOf(next, i);
    TakeStill(d, k, c);
    StillTwice(ch, d, TakeUnreliableFragment(d, k, c, []).channel);
  }

  lemma ReceiveStill(ch: Channel, c: Command, room: bool, maximumPacketSize: nat)
    requires BitsOk(ch.reliables) && BitsOk(ch.unreliables) && Idle(ch)
    ensures StillThere(ch, Receive(ch, c, room, maximumPacketSize).channel)
  {
    hide StillThere, Marks, Idle, InWindow, FragmentFits, BitsOk, ReceiveReliable, ReceiveFragment, ReceiveUnreliable, ReceiveUnreliableFragment;
    Same(ch, ch);
    match c.kind
    case SendReliable => ReliableStill(ch, c, room);
    case SendFragment => FragmentStill(ch, c, room, maximumPacketSize);
    case SendUnreliable => UnreliableStill(ch, c, room);
    case SendUnreliableFragment => UnreliableFragmentStill(ch, c, room, maximumPacketSize);
  }

  lemma ReliableStill(ch: Channel, c: Command, room: bool)
    ensures StillThere(ch, ReceiveReliable(ch, c, room).channel)
  {
    hide StillThere, Marks, InWindow, NewIncoming, DispatchReliable, SearchReliable, Insert;
    var place := SearchReliable(ch.reliables, c.reliable, ch.incoming, |ch.reliables|);
    var next := ch.(reliables := Insert(ch.reliables, place.index, NewIncoming(c, c.reliable, 0)));
    Same(ch, ch);
    ReliablesStill(next);
    StillFrom(ch, next, DispatchReliable(next).0);
  }

  lemma FragmentStill(ch: Channel, c: Command, room: bool, maximumPacketSize: nat)
    requires BitsOk(ch.reliables) && c.kind == SendFragment && Idle(ch)
    ensures StillThere(ch, ReceiveFragment(ch, c, room, maximumPacketSize).channel)
  {
    hide StillThere, Marks, Idle, InWindow, QueueFragment, TakeFragment, SearchReliable, BitsOk;
    Same(ch, ch);
    var place := SearchReliable(ch.reliables, c.start, ch.incoming, |ch.reliables|);
    if FragmentFits(c, maximumPacketSize) {
      if place.At? && SamePacket(ch.reliables[place.index], c) {
        TakeReliableStill(ch, place.index, c);
      } else if !place.At? {
        QueueReliableStill(ch, place.index, c);
      }
    }
  }

  lemma UnreliableStill(ch: Channel, c: Command, room: bool)
    ensures StillThere(ch, ReceiveUnreliable(ch, c, room).channel)
  {
    hide StillThere, Marks, InWindow, NewIncoming, DispatchUnreliable, SearchUnreliable, Insert;
    Same(ch, ch);
    var place := SearchUnreliable(ch.unreliables, c.reliable, c.start, ch.incoming, |ch.unreliables|);
    InsertStill(ch, place.index, NewIncoming(c, c.reliable, c.start), place.index);
  }

  lemma UnreliableFragmentStill(ch: Channel, c: Command, room: bool, maximumPacketSize: nat)
    requires BitsOk(ch.unreliables) && c.kind == SendUnreliableFragment
    ensures StillThere(ch, ReceiveUnreliableFragment(ch, c, room, maximumPacketSize).channel)
  {
    hide StillThere, Marks, InWindow, SearchUnreliable, TakeUnreliableFragment, QueueUnreliableFragment;
    Same(ch, ch);
    var place := SearchUnreliable(ch.unreliables, c.reliable, c.start, ch.incoming, |ch.unreliables|);
    if FragmentFits(c, maximumPacketSize) {
      if place.At? && SamePacket(ch.unreliables[place.index], c) {
        TakeStill(ch, place.index, c);
      }
      QueueStill(ch, place.index, c);
    }
  }

  // ---- whose turn it is

  /** The packet's entry left the queue, and the packet was not dispatched. */
  ghost predicate Removed(s: State, t: State, tag: nat) {
    && (exists i :: 0 <= i < |s.channel.unreliables| && s.channel.unreliables[i].tag == tag)
    && (forall i :: 0 <= i < |t.channel.unreliables| ==> t.channel.unreliables[i].tag != tag)
    && !Arrived(t, tag)
  }

  /** A later packet was dispatched. */
  ghost predicate Overtaken(s: State, tag: nat) {
    exists j :: 0 <= j < |s.out| && s.out[j].tag > tag
  }

  lemma OnlyDeliveriesRemove(s: State, step: Step, t: State, tag: nat)
    requires Next(s, step, t) && Removed(s, t, tag)
    ensures step.Deliver?
  {
    hide NewPacket, WindowWraps, InTransit, Lengths, LastReliable, Num, Receive, Packet.Wire, Packet.Pieces, Packet.Count, Packet.Ok, Arrived;
  }

  lemma MarkStays(ch: Channel, t: Channel, i: nat)
    requires StillThere(ch, t) && i < |ch.unreliables| && Later(ch.unreliables[i].reliable, t.incoming)
    ensures exists j :: 0 <= j < |t.unreliables| && t.unreliables[j].tag == ch.unreliables[i].tag
  {
    hide Later;
    var m := (ch.unreliables[i].tag, ch.unreliables[i].reliable);
    assert m in Marks(ch.unreliables);
  }

  /** What was removed waits for no later number. */
  lemma RemovedHasTurn(s: State, r: nat, step: Step, t: State, tag: nat) returns (r': nat)
    requires InvAt(s, r) && Next(s, step, t) && Timely(s, step) && Removed(s, t, tag)
    ensures InvAt(t, r') && t.packets == s.packets
    ensures tag < |s.packets| && !s.packets[tag].Reliable() && s.packets[tag].first <= r'
  {
    OnlyDeliveriesRemove(s, step, t, tag);
    var i :| 0 <= i < |s.channel.unreliables| && s.channel.unreliables[i].tag == tag;
    hide *;
    InvMeans(s, r);
    r' := DeliverKeeps(s, r, t, step.tag, step.piece, step.room, step.maximumPacketSize);
    InvMeans(t, r');
    CarriedMeans(s, r, t, r');
    DeliverMeans(s, t, step.tag, step.piece, step.room, step.maximumPacketSize);
    ReceiveStill(s.channel, s.packets[step.tag].Wire(step.tag, step.piece), step.room, step.maximumPacketSize);
    SettledOf(s.packets, s.channel, r, s.sent);
    SettledOf(t.packets, t.channel, r', t.sent);
    WaitsAhead(s.packets, s.channel.unreliables, r, i, r');
    if s.packets[tag].first > r' {
      MarkStays(s.channel, t.channel, i);
      NoneLeft(s, t, tag);
    }
  }

  lemma NoneLeft(s: State, t: State, tag: nat)
    requires Removed(s, t, tag)
    ensures forall i :: 0 <= i < |t.channel.unreliables| ==> t.channel.unreliables[i].tag != tag
  {
  }

  lemma CarriedMeans(s: State, r: nat, t: State, r': nat)
    requires Carried(s, r, t, r')
    ensures r <= r'
  {
  }

  lemma WaitsAhead(packets: seq<Packet>, q: seq<Incoming>, r: nat, i: nat, r': nat)
    requires UnreliableSettled(packets, q, r) && i < |q| && r <= r'
    ensures q[i].tag < |packets| && !packets[q[i].tag].Reliable()
    ensures packets[q[i].tag].first > r' ==> Later(q[i].reliable, Num(r'))
  {
    hide Num, Win, EntryOk, InWindow;
    assert UnreliableEntry(packets, q[i], r) && Waiting(packets, q[i], r);
    WinMonotone(r, r');
    if packets[q[i].tag].first > r' {
      AheadOf(packets[q[i].tag].first, r');
    }
  }

  /** If all reliable packets in front of an unreliable one were dispatched, and nothing behind it, the
      channel stands right in front of it. */
  lemma TurnIsNow(s: State, r: nat, tag: nat)
    requires InvAt(s, r) && tag < |s.packets| && !s.packets[tag].Reliable() && s.packets[tag].first <= r
    requires !Arrived(s, tag) && !Overtaken(s, tag)
    ensures s.packets[tag].first == r && s.channel.unreliable < s.packets[tag].unreliable
  {
    var p := s.packets[tag];
    InvMeans(s, r);
    hide InvAt, Num, ReliableQueue, UnreliableSettled, ReliableTags, TagsUpTo, History, Packet.Ok;
    NumbersOrdered(s.packets, tag);
    if p.first < r {
      var b := PacketWith(s.packets, r);
      NumbersOrdered(s.packets, b);
      if b < tag {
        HistoryOrder(s.packets, b, tag);
      } else {
        TagsUpToHas(s.packets, |s.packets|, r, b);
        ReliableTagsHave(s.packets, s.out, b);
      }
      assert false;
    }
    if s.channel.unreliable >= p.unreliable {
      PositiveNumber(p);
      var h := s.out[|s.out| - 1].tag;
      if h < tag {
        HistoryOrder(s.packets, h, tag);
      }
      assert false;
    }
  }

  lemma PositiveNumber(p: Packet)
    requires p.Ok() && !p.Reliable()
    ensures p.unreliable > 0
  {
  }

  // ---- the packet's pieces arrive

  lemma {:induction false} ScanTakes(q: seq<Incoming>, incoming: uint16, s: Scan, j: nat)
    requires ScanOk(q, s) && j < |q| && q[j].reliable == incoming && q[j].remaining == 0
    requires forall i :: s.current <= i <= j ==> !Later(q[i].reliable, incoming)
    requires j < s.current ==> q[j] in s.moved + q[s.start..s.current]
    ensures var t := ScanAll(q, incoming, s); j < t.current && q[j] in t.moved + q[t.start..t.current]
    decreases |q| - s.current
  {
    hide InWindow;
    if s.current < |q| && !Later(q[s.current].reliable, incoming) {
      var t := ScanTurn(q, incoming, s);
      TurnMoves(q, incoming, s);
      ScanTakes(q, incoming, t, j);
    }
  }

  /** A turn of the walk loses nothing that is about to be moved, and adds a complete entry. */
  lemma TurnMoves(q: seq<Incoming>, incoming: uint16, s: Scan)
    requires ScanOk(q, s) && s.current < |q| && !Later(q[s.current].reliable, incoming)
    ensures var t := ScanTurn(q, incoming, s);
      && (forall e :: e in s.moved + q[s.start..s.current] ==> e in t.moved + q[t.start..t.current])
      && (q[s.current].reliable == incoming && q[s.current].remaining == 0 ==> q[s.current] in t.moved + q[t.start..t.current])
  {
    hide InWindow;
    var t, e := ScanTurn(q, incoming, s), q[s.current];
    if e.reliable == incoming && e.remaining == 0 {
      assert t.moved + q[t.start..t.current] == s.moved + q[s.start..s.current] + [e];
    } else {
      assert t.moved + q[t.start..t.current] == s.moved + q[s.start..s.current];
    }
  }

  /** A complete entry whose turn it is is dispatched. */
  lemma DueMoves(packets: seq<Packet>, c: Channel, r: nat, queued: int, j: nat)
    requires History(packets) && c.incoming == Num(r) && UnreliableQueue(packets, c.unreliables, r, c.unreliable)
    requires j < |c.unreliables| && packets[c.unreliables[j].tag].first == r && c.unreliables[j].remaining == 0
    ensures c.unreliables[j] in DispatchUnreliable(c, queued).1
  {
    var q := c.unreliables;
    forall i | 0 <= i <= j ensures !Later(q[i].reliable, Num(r)) && (i == j ==> q[i].reliable == Num(r)) {
      assert UnreliableEntry(packets, q[i], r) && UnreliableEntry(packets, q[j], r);
      WalkTests(packets, q[i], r);
      if i < j {
        HistoryOrder(packets, q[i].tag, q[j].tag);
        NumbersOrdered(packets, q[i].tag);
      }
    }
    hide History, Num, UnreliableQueue, Later, InWindow, ScanAll, Kept;
    var s0 := Scan(0, 0, 0, c.unreliable, [], []);
    ScanTakes(q, c.incoming, s0, j);
    var s := ScanAll(q, c.incoming, s0);
    assert s.start == s.current ==> s.moved + q[s.start..s.current] == s.moved;
  }

  /** The entry of the packet has its first f fragments. */
  ghost predicate Collected(q: seq<Incoming>, tag: nat, f: nat) {
    exists k :: 0 <= k < |q| && HasFirst(q[k], tag, f)
  }

  predicate HasFirst(e: Incoming, tag: nat, f: nat) {
    e.tag == tag && f <= |e.got| && forall j :: 0 <= j < f ==> e.got[j]
  }

  /** What the next piece brings about: the packet is dispatched, or its entry has one more fragment. */
  ghost predicate Gains(a: Result, ch: Channel, tag: nat, f: nat) {
    || (exists e :: e in a.out && e.tag == tag)
    || (a.channel.incoming == ch.incoming && a.channel.unreliable == ch.unreliable && Collected(a.channel.unreliables, tag, f))
  }

  lemma GainsAll(a: Result, ch: Channel, e: Incoming, f: nat)
    requires e in a.out
    ensures Gains(a, ch, e.tag, f)
  {
  }

  lemma GainsOne(a: Result, ch: Channel, tag: nat, f: nat, k: nat)
    requires a.channel.incoming == ch.incoming && a.channel.unreliable == ch.unreliable
    requires k < |a.channel.unreliables| && HasFirst(a.channel.unreliables[k], tag, f)
    ensures Gains(a, ch, tag, f)
  {
    hide HasFirst;
  }

  lemma OneMoreFragment(e: Incoming, tag: nat, f: nat, c: Command)
    requires HasFirst(e, tag, f) && c.fragment == f < |e.got| && c.offset + |c.data| <= |e.packet|
    ensures e.got[f] ==> HasFirst(e, tag, f + 1)
    ensures HasFirst(AddFragment(e, c), tag, f + 1) && AddFragment(e, c).tag == tag
  {
  }

  lemma NowInWindow(r: nat)
    ensures InWindow(Num(r), Num(r)) && Win(r) < Win(r) + WINDOWS
  {
  }

  lemma WaitsForMore(packets: seq<Packet>, q: seq<Incoming>, r: nat, k: nat)
    requires UnreliableSettled(packets, q, r) && k < |q|
    ensures q[k].tag < |packets| && EntryOk(q[k], packets[q[k].tag])
    ensures packets[q[k].tag].first == r ==> q[k].remaining > 0 && packets[q[k].tag].Fragmented()
  {
    assert Waiting(packets, q[k], r);
  }

  lemma WholeIsComplete(p: Packet, tag: nat)
    requires p.Ok() && p.kind == SendUnreliable
    ensures p.Pieces() == 1 && !p.Fragmented() && NewIncoming(p.Wire(tag, 0), Num(p.first), p.unreliable).remaining == 0
  {
  }

  /** The channel stands right in front of the packet. */
  ghost predicate InFront(packets: seq<Packet>, ch: Channel, r: nat, tag: nat) {
    && History(packets) && UnreliableSettled(packets, ch.unreliables, r) && ch.incoming == Num(r)
    && tag < |packets| && !packets[tag].Reliable() && packets[tag].first == r && ch.unreliable < packets[tag].unreliable
  }

  lemma FrontMeans(packets: seq<Packet>, ch: Channel, r: nat, tag: nat)
    requires InFront(packets, ch, r, tag)
    ensures History(packets) && UnreliableSettled(packets, ch.unreliables, r) && ch.incoming == Num(r)
    ensures tag < |packets| && !packets[tag].Reliable() && packets[tag].first == r && ch.unreliable < packets[tag].unreliable
  {
    hide History, UnreliableSettled;
  }

  lemma WholeArrives(packets: seq<Packet>, ch: Channel, r: nat, tag: nat)
    requires InFront(packets, ch, r, tag) && packets[tag].Ok() && packets[tag].kind == SendUnreliable
    ensures Gains(ReceiveUnreliable(ch, packets[tag].Wire(tag, 0), true), ch, tag, 1)
  {
    hide *;
    FrontMeans(packets, ch, r, tag);
    var p := packets[tag];
    WholeIsComplete(p, tag);
    UnreliableKind(p);
    WireUnreliable(p, tag, 0);
    NowInWindow(r);
    var c := p.Wire(tag, 0);
    UnreliablePlace(packets, ch.unreliables, r, tag);
    UnreliableCases(ch, c, true);
    var place := SearchUnreliable(ch.unreliables, c.reliable, c.start, ch.incoming, |ch.unreliables|);
    if place.At? {
      WaitsForMore(packets, ch.unreliables, r, place.index);
    } else {
      var e := NewIncoming(c, c.reliable, c.start);
      RoomAhead(r);
      NewUnreliableEntry(packets, tag, 0, r);
      NewTagged(p, tag, 0, c.reliable, c.start);
      UnreliableInserted(packets, ch.unreliables, r, ch.unreliable, place.index, e);
      InsertedAt(ch.unreliables, place.index, e);
      var next := ch.(unreliables := Insert(ch.unreliables, place.index, e));
      DueMoves(packets, next, r, place.index, place.index);
      var d := DispatchUnreliable(next, place.index);
      GainsAll(Result(true, d.0, d.1), ch, e, 1);
    }
  }

  lemma RoomAhead(r: nat)
    ensures Win(r) < Win(r) + FREE_WINDOWS - 1
  {
  }

  /** The entry at position k takes the next fragment. */
  lemma PieceTaken(packets: seq<Packet>, ch: Channel, r: nat, tag: nat, f: nat, k: nat, c: Command)
    requires InFront(packets, ch, r, tag) && packets[tag].kind == SendUnreliableFragment && Carries(c, packets[tag], f)
    requires k < |ch.unreliables| && HasFirst(ch.unreliables[k], tag, f) && ch.unreliables[k].tag == tag
    ensures c.fragment < c.count && c.offset + |c.data| <= c.total && SamePacket(ch.unreliables[k], c) && |ch.unreliables[k].got| == c.count
    ensures Gains(TakeUnreliableFragment(ch, k, c, []), ch, tag, f + 1)
  {
    hide *;
    FrontMeans(packets, ch, r, tag);
    var e := ch.unreliables[k];
    SettledEntry(packets, ch.unreliables, r, k);
    EntryShape(e, packets[tag], c, f);
    TakeUnreliableIs(ch, k, c);
    OneMoreFragment(e, tag, f, c);
    var t := TakeUnreliableFragment(ch, k, c, []);
    if e.got[f] {
      GainsOne(t, ch, tag, f + 1, k);
    } else {
      MarkUnreliable(packets, ch.unreliables, r, ch.unreliable, tag, f, k, c);
      var g := AddFragment(e, c);
      var next := ch.(unreliables := ch.unreliables[k := g]);
      if g.remaining > 0 {
        GainsOne(t, ch, tag, f + 1, k);
      } else {
        DueMoves(packets, next, r, -1, k);
        GainsAll(t, ch, g, f + 1);
      }
    }
  }

  lemma NotOld(c: Command, ch: Channel, r: nat, p: Packet)
    requires ch.incoming == Num(r) && c.reliable == Num(p.first) && c.start == p.unreliable && p.first == r && ch.unreliable < p.unreliable
    ensures InWindow(c.reliable, ch.incoming) && !(c.reliable == ch.incoming && c.start <= ch.unreliable)
  {
  }

  lemma FragmentHandled(ch: Channel, c: Command, maximumPacketSize: nat)
    requires BitsOk(ch.unreliables) && c.kind == SendUnreliableFragment && FragmentFits(c, maximumPacketSize)
    requires InWindow(c.reliable, ch.incoming) && !(c.reliable == ch.incoming && c.start <= ch.unreliable)
    requires var place := SearchUnreliable(ch.unreliables, c.reliable, c.start, ch.incoming, |ch.unreliables|);
      place.At? ==> SamePacket(ch.unreliables[place.index], c)
    ensures c.fragment < c.count && c.offset + |c.data| <= c.total
    ensures var place := SearchUnreliable(ch.unreliables, c.reliable, c.start, ch.incoming, |ch.unreliables|);
      ReceiveUnreliableFragment(ch, c, true, maximumPacketSize) ==
        if place.At? then TakeUnreliableFragment(ch, place.index, c, []) else QueueUnreliableFragment(ch, place.index, c)
  {
    hide SearchUnreliable, InWindow, TakeUnreliableFragment, QueueUnreliableFragment, SamePacket;
  }

  lemma FitsUnreliable(p: Packet, tag: nat, f: nat)
    requires p.Ok() && p.kind == SendUnreliableFragment && f < p.Pieces() == p.Count() <= MAXIMUM_FRAGMENT_COUNT
    ensures FragmentFits(p.Wire(tag, f), |p.data|) && |p.Wire(tag, f).data| <= |p.data|
  {
    p.PieceBounds(f);
  }

  /** There is one entry for a packet. */
  lemma OnlyEntry(packets: seq<Packet>, q: seq<Incoming>, r: nat, k: nat, tag: nat, f: nat)
    requires UnreliableSettled(packets, q, r) && k < |q| && q[k].tag == tag && Collected(q, tag, f)
    ensures HasFirst(q[k], tag, f)
  {
    hide UnreliableEntry, Waiting;
  }

  lemma SomeEntry(q: seq<Incoming>, tag: nat, f: nat)
    requires Collected(q, tag, f)
    ensures exists k :: 0 <= k < |q| && q[k].tag == tag
  {
  }

  lemma NothingYet(e: Incoming, tag: nat)
    requires e.tag == tag
    ensures HasFirst(e, tag, 0)
  {
  }

  lemma FragmentArrives(packets: seq<Packet>, ch: Channel, r: nat, tag: nat, f: nat)
    requires InFront(packets, ch, r, tag) && packets[tag].Ok() && packets[tag].kind == SendUnreliableFragment && BitsOk(ch.unreliables)
    requires f < packets[tag].Pieces() && packets[tag].Count() <= MAXIMUM_FRAGMENT_COUNT && (f == 0 || Collected(ch.unreliables, tag, f))
    ensures packets[tag].Wire(tag, f).kind == SendUnreliableFragment
    ensures Gains(ReceiveUnreliableFragment(ch, packets[tag].Wire(tag, f), true, |packets[tag].data|), ch, tag, f + 1)
  {
    hide *;
    FrontMeans(packets, ch, r, tag);
    var p := packets[tag];
    UnreliableKind(p);
    SomePieces(p);
    WireUnreliable(p, tag, f);
    WireCarries(p, tag, f);
    FitsUnreliable(p, tag, f);
    NowInWindow(r);
    var c := p.Wire(tag, f);
    NotOld(c, ch, r, p);
    UnreliablePlace(packets, ch.unreliables, r, tag);
    var place := SearchUnreliable(ch.unreliables, c.reliable, c.start, ch.incoming, |ch.unreliables|);
    if place.At? {
      if f == 0 {
        NothingYet(ch.unreliables[place.index], tag);
      } else {
        OnlyEntry(packets, ch.unreliables, r, place.index, tag, f);
      }
      PieceTaken(packets, ch, r, tag, f, place.index, c);
    } else {
      if f > 0 {
        SomeEntry(ch.unreliables, tag, f);
      }
      FirstPieceQueued(packets, ch, r, tag, place.index);
    }
    FragmentHandled(ch, c, |p.data|);
  }

  /** The first piece makes an entry, which the walk leaves alone, and is put into it. */
  lemma FirstPieceQueued(packets: seq<Packet>, ch: Channel, r: nat, tag: nat, j: nat)
    requires InFront(packets, ch, r, tag) && packets[tag].Ok() && packets[tag].kind == SendUnreliableFragment
    requires 0 < packets[tag].Pieces() == packets[tag].Count() && j <= |ch.unreliables|
    requires (forall i :: 0 <= i < j ==> ch.unreliables[i].tag < tag) && (forall i :: j <= i < |ch.unreliables| ==> tag < ch.unreliables[i].tag)
    ensures var c := packets[tag].Wire(tag, 0);
      && c.kind == SendUnreliableFragment && c.fragment < c.count && c.offset + |c.data| <= c.total
      && Gains(QueueUnreliableFragment(ch, j, c), ch, tag, 1)
  {
    hide *;
    FrontMeans(packets, ch, r, tag);
    var p := packets[tag];
    var c := p.Wire(tag, 0);
    UnreliableKind(p);
    WireUnreliable(p, tag, 0);
    WireCarries(p, tag, 0);
    CarriedBounds(c, p, 0);
    RoomAhead(r);
    NewUnreliableEntry(packets, tag, 0, r);
    NewTagged(p, tag, 0, c.reliable, c.start);
    FreshEntry(p, tag, 0, c.reliable, c.start);
    var e := NewIncoming(c, c.reliable, c.start);
    WaitsForFragments(packets, e, r);
    UnreliableInserted(packets, ch.unreliables, r, ch.unreliable, j, e);
    InsertedAt(ch.unreliables, j, e);
    DeliveryInvariant.NotBehind(packets, e, r);
    var next := ch.(unreliables := Insert(ch.unreliables, j, e));
    DispatchUnreliableKeeps(packets, next, r, j);
    IdleDispatch(packets, next, r, j);
    QueuedStays(next, j);
    QueueUnreliableSteps(ch, j, c);
    var d, k := DispatchUnreliable(next, j), PlaceOf(next, j);
    FrontStays(packets, ch, r, tag, d.0);
    NothingYet(e, tag);
    PieceTaken(packets, d.0, r, tag, 0, k, c);
    var t := TakeUnreliableFragment(d.0, k, c, []);
    SameGains(t, d.0, ch, tag, d.1);
  }

  lemma FrontStays(packets: seq<Packet>, ch: Channel, r: nat, tag: nat, t: Channel)
    requires InFront(packets, ch, r, tag) && UnreliableSettled(packets, t.unreliables, r)
    requires t.incoming == ch.incoming && t.unreliable == ch.unreliable
    ensures InFront(packets, t, r, tag)
  {
    hide History, UnreliableSettled;
  }

  lemma SameGains(t: Result, d: Channel, ch: Channel, tag: nat, out: seq<Incoming>)
    requires Gains(t, d, tag, 1) && out == [] && d.incoming == ch.incoming && d.unreliable == ch.unreliable
    ensures Gains(Result(true, t.channel, out + t.out), ch, tag, 1)
  {
    hide Collected;
    assert out + t.out == t.out;
  }

  // ---- what can still be dispatched

  /** n steps lead from s to t. */
  ghost predicate Follow(s: State, t: State, n: nat)
    decreases n
  {
    if n == 0 then s == t else exists m: State, step: Step :: Follow(s, m, n - 1) && Next(m, step, t) && Timely(m, step)
  }

  ghost predicate CanArrive(s: State, tag: nat) {
    exists t: State, n: nat :: Follow(s, t, n) && Arrived(t, tag)
  }

  lemma Nowhere(s: State)
    ensures Follow(s, s, 0)
  {
  }

  lemma {:induction false} StepFirst(s: State, step: Step, m: State, t: State, n: nat)
    requires Next(s, step, m) && Timely(s, step) && Follow(m, t, n)
    ensures Follow(s, t, n + 1)
    decreases n
  {
    hide Next, Timely;
    if n == 0 {
      Nowhere(s);
      assert Follow(s, s, 0);
    } else {
      var u: State, last: Step :| Follow(m, u, n - 1) && Next(u, last, t) && Timely(u, last);
      StepFirst(s, step, m, u, n - 1);
    }
  }

  lemma ReceiveAllows(ch: Channel, c: Command, maximumPacketSize: nat)
    requires BitsOk(ch.reliables) && BitsOk(ch.unreliables) && |c.data| <= maximumPacketSize
    ensures c.kind == SendUnreliable ==> Receive(ch, c, true, maximumPacketSize) == ReceiveUnreliable(ch, c, true)
    ensures c.kind == SendUnreliableFragment ==> Receive(ch, c, true, maximumPacketSize) == ReceiveUnreliableFragment(ch, c, true, maximumPacketSize)
  {
    hide ReceiveReliable, ReceiveFragment, ReceiveUnreliable, ReceiveUnreliableFragment;
  }

  /** What a piece brings about, whatever its kind. */
  lemma PieceGains(packets: seq<Packet>, ch: Channel, r: nat, tag: nat, f: nat)
    requires InFront(packets, ch, r, tag) && packets[tag].Ok() && BitsOk(ch.reliables) && BitsOk(ch.unreliables)
    requires f < packets[tag].Pieces() && packets[tag].Count() <= MAXIMUM_FRAGMENT_COUNT && (f == 0 || Collected(ch.unreliables, tag, f))
    ensures Gains(Receive(ch, packets[tag].Wire(tag, f), true, |packets[tag].data|), ch, tag, f + 1)
  {
    hide *;
    FrontMeans(packets, ch, r, tag);
    var p := packets[tag];
    UnreliableKind(p);
    WireKind(p, tag, f);
    if p.kind == SendUnreliable {
      WholeIsComplete(p, tag);
      WholeData(p, tag);
      ReceiveAllows(ch, p.Wire(tag, 0), |p.data|);
      WholeArrives(packets, ch, r, tag);
    } else {
      FitsUnreliable(p, tag, f);
      ReceiveAllows(ch, p.Wire(tag, f), |p.data|);
      FragmentArrives(packets, ch, r, tag, f);
    }
  }

  lemma WholeData(p: Packet, tag: nat)
    requires p.Ok() && p.kind == SendUnreliable
    ensures p.Pieces() > 0 && p.Wire(tag, 0).data == p.data
  {
  }

  /** The state after the delivery of a piece of an unreliable packet. */
  ghost function After(s: State, tag: nat, f: nat): State
    requires tag < |s.packets| && s.packets[tag].Ok() && f < s.packets[tag].Pieces()
    requires BitsOk(s.channel.reliables) && BitsOk(s.channel.unreliables)
  {
    var a := Receive(s.channel, s.packets[tag].Wire(tag, f), true, |s.packets[tag].data|);
    s.(channel := a.channel, out := s.out + a.out)
  }

  lemma AfterIsNext(s: State, r: nat, tag: nat, f: nat)
    requires InvAt(s, r) && tag < |s.packets| && s.packets[tag].Ok() && f < s.packets[tag].Pieces() && s.packets[tag].first == r
    requires !s.packets[tag].Reliable() && BitsOk(s.channel.reliables) && BitsOk(s.channel.unreliables)
    ensures var step := Deliver(tag, f, true, |s.packets[tag].data|); Next(s, step, After(s, tag, f)) && Timely(s, step)
  {
    UnreliableKind(s.packets[tag]);
    WireKind(s.packets[tag], tag, f);
    SettledOf(s.packets, s.channel, r, s.sent);
    WinMonotone(r, s.sent);
    hide Receive, Packet.Wire, Packet.Ok, Packet.Pieces, BitsOk, InvAt, Num;
  }

  /** The receiver stays where it is, and has the packet, or one more fragment of it. */
  lemma AfterPiece(s: State, r: nat, tag: nat, f: nat) returns (t: State)
    requires InvAt(s, r) && InFront(s.packets, s.channel, r, tag) && Accepts(s.packets) && f < s.packets[tag].Pieces()
    requires f == 0 || Collected(s.channel.unreliables, tag, f)
    ensures Next(s, Deliver(tag, f, true, |s.packets[tag].data|), t) && Timely(s, Deliver(tag, f, true, |s.packets[tag].data|))
    ensures t.packets == s.packets
    ensures Arrived(t, tag) || (InvAt(t, r) && InFront(t.packets, t.channel, r, tag) && Collected(t.channel.unreliables, tag, f + 1))
  {
    hide *;
    InvMeans(s, r);
    FrontMeans(s.packets, s.channel, r, tag);
    NumbersOrdered(s.packets, tag);
    EntriesHaveBits(s.packets, s.channel, r, s.sent);
    FewPieces(s.packets, tag);
    PieceGains(s.packets, s.channel, r, tag, f);
    AfterIsNext(s, r, tag, f);
    t := After(s, tag, f);
    AfterIs(s, tag, f);
    var r' := DeliverKeeps(s, r, t, tag, f, true, |s.packets[tag].data|);
    CarriedMeans(s, r, t, r');
    InvMeans(t, r');
    var a := Receive(s.channel, s.packets[tag].Wire(tag, f), true, |s.packets[tag].data|);
    if t.channel.incoming == s.channel.incoming {
      SettledOf(s.packets, s.channel, r, s.sent);
      SettledOf(t.packets, t.channel, r', t.sent);
      SameNumber(r, r', t.sent);
    }
    GainsMean(s, t, a, tag, f + 1, r);
  }

  lemma AfterIs(s: State, tag: nat, f: nat)
    requires tag < |s.packets| && s.packets[tag].Ok() && f < s.packets[tag].Pieces()
    requires BitsOk(s.channel.reliables) && BitsOk(s.channel.unreliables)
    ensures var a, t := Receive(s.channel, s.packets[tag].Wire(tag, f), true, |s.packets[tag].data|), After(s, tag, f);
      t == s.(channel := a.channel, out := s.out + a.out)
  {
    hide Receive, Packet.Wire;
  }

  lemma FewPieces(packets: seq<Packet>, tag: nat)
    requires Accepts(packets) && tag < |packets|
    ensures packets[tag].Count() <= MAXIMUM_FRAGMENT_COUNT
  {
  }

  lemma SameNumber(r: nat, r': nat, sent: nat)
    requires r <= r' <= sent && Win(sent) < Win(r) + FREE_WINDOWS && Num(r') == Num(r)
    ensures r' == r
  {
    NumWin(r);
    NumWin(r');
  }

  lemma GainsMean(s: State, t: State, a: Result, tag: nat, f: nat, r: nat)
    requires Gains(a, s.channel, tag, f) && t == s.(channel := a.channel, out := s.out + a.out)
    requires InFront(s.packets, s.channel, r, tag)
    requires t.channel.incoming == s.channel.incoming ==> UnreliableSettled(t.packets, t.channel.unreliables, r)
    ensures Arrived(t, tag) ||
      (t.channel.incoming == s.channel.incoming && InFront(t.packets, t.channel, r, tag) && Collected(t.channel.unreliables, tag, f))
  {
    hide History, UnreliableSettled, Collected;
    if e :| e in a.out && e.tag == tag {
      var j :| 0 <= j < |a.out| && a.out[j] == e;
      assert t.out[|s.out| + j].tag == tag;
    }
  }

  /** A waiting entry has not all its fragments. */
  lemma NeverWhole(packets: seq<Packet>, ch: Channel, r: nat, tag: nat)
    requires InFront(packets, ch, r, tag)
    ensures !Collected(ch.unreliables, tag, packets[tag].Pieces())
  {
    hide EntryOk, UnreliableSettled, History, Packet.Pieces;
    var q := ch.unreliables;
    if k :| 0 <= k < |q| && HasFirst(q[k], tag, packets[tag].Pieces()) {
      WaitsForMore(packets, q, r, k);
      IsWhole(q[k], packets[tag]);
    }
  }

  lemma IsWhole(e: Incoming, p: Packet)
    requires EntryOk(e, p) && p.Fragmented() && HasFirst(e, e.tag, p.Pieces())
    ensures e.remaining == 0
  {
    SomePieces(p);
    MissingZero(e.got);
  }

  lemma {:induction false} BringsAll(s: State, r: nat, tag: nat, f: nat) returns (t: State, n: nat)
    requires InvAt(s, r) && InFront(s.packets, s.channel, r, tag) && Accepts(s.packets) && f <= s.packets[tag].Pieces()
    requires f == 0 || Collected(s.channel.unreliables, tag, f)
    ensures Follow(s, t, n) && Arrived(t, tag)
    decreases s.packets[tag].Pieces() - f
  {
    hide *;
    FrontMeans(s.packets, s.channel, r, tag);
    NeverWhole(s.packets, s.channel, r, tag);
    if f < s.packets[tag].Pieces() {
      var step := Deliver(tag, f, true, |s.packets[tag].data|);
      var m := AfterPiece(s, r, tag, f);
      if Arrived(m, tag) {
        Nowhere(m);
        t, n := m, 0;
      } else {
        t, n := BringsAll(m, r, tag, f + 1);
      }
      StepFirst(s, step, m, t, n);
      n := n + 1;
    }
  }

  // ---- the theorems

  /** Along any steps the packets stay, and what was dispatched stays in front of what is dispatched next. */
  lemma {:induction false} FollowKeeps(s: State, t: State, n: nat)
    requires Inv(s) && Follow(s, t, n)
    ensures Inv(t) && s.out <= t.out
    decreases n
  {
    hide Inv, Next, Timely;
    if n > 0 {
      var m: State, step: Step :| Follow(s, m, n - 1) && Next(m, step, t) && Timely(m, step);
      FollowKeeps(s, m, n - 1);
      NextKeeps(m, step, t);
      OutGrows(m, step, t);
    }
  }

  lemma OutGrows(s: State, step: Step, t: State)
    requires Inv(s) && Next(s, step, t)
    ensures s.out <= t.out
  {
    hide InvAt, NewPacket, WindowWraps, InTransit, Lengths, LastReliable, Num, Receive, Packet.Wire, Packet.Pieces, Packet.Count, Packet.Ok,
      Acknowledges;
    if step.Deliver? {
      var r :| InvAt(s, r);
      InvMeans(s, r);
      EntriesHaveBits(s.packets, s.channel, r, s.sent);
      if step.tag < |s.packets| {
        NumbersOrdered(s.packets, step.tag);
      }
      DeliverMeans(s, t, step.tag, step.piece, step.room, step.maximumPacketSize);
    }
  }

  /** What was overtaken is never dispatched. */
  lemma OvertakenIsLost(s: State, tag: nat)
    requires Inv(s) && Overtaken(s, tag) && !Arrived(s, tag)
    ensures !CanArrive(s, tag)
  {
    hide Inv;
    forall t: State, n: nat | Follow(s, t, n) ensures !Arrived(t, tag) {
      FollowKeeps(s, t, n);
      Ascends(t);
      var j :| 0 <= j < |s.out| && s.out[j].tag > tag;
      assert t.out[j] == s.out[j];
      forall i | 0 <= i < |t.out| ensures t.out[i].tag != tag {
        if i < |s.out| {
          assert t.out[i] == s.out[i];
        }
      }
    }
  }

  lemma Ascends(s: State)
    requires Inv(s)
    ensures TagsAscend(s.out)
  {
    var r :| InvAt(s, r);
    InvMeans(s, r);
  }

  /** An unreliable packet whose turn has come, because all reliable ones in front of it were dispatched,
      can be dispatched if and only if no later packet was. */
  lemma TurnIsExact(s: State, r: nat, tag: nat)
    requires InvAt(s, r) && Accepts(s.packets) && tag < |s.packets| && !s.packets[tag].Reliable() && s.packets[tag].first <= r
    requires !Arrived(s, tag)
    ensures CanArrive(s, tag) <==> !Overtaken(s, tag)
  {
    hide *;
    if Overtaken(s, tag) {
      StandsAt(s, r);
      OvertakenIsLost(s, tag);
    } else {
      TurnIsNow(s, r, tag);
      IsInFront(s, r, tag);
      var t, n := BringsAll(s, r, tag, 0);
      Reaches(s, t, n, tag);
    }
  }

  lemma Reaches(s: State, t: State, n: nat, tag: nat)
    requires Follow(s, t, n) && Arrived(t, tag)
    ensures CanArrive(s, tag)
  {
  }

  lemma IsInFront(s: State, r: nat, tag: nat)
    requires InvAt(s, r) && tag < |s.packets| && !s.packets[tag].Reliable()
    requires s.packets[tag].first == r && s.channel.unreliable < s.packets[tag].unreliable
    ensures InFront(s.packets, s.channel, r, tag)
  {
    InvMeans(s, r);
    SettledOf(s.packets, s.channel, r, s.sent);
    hide InvAt, History, UnreliableSettled;
  }

  /** A packet that the walk removes without dispatching it is dispatched afterwards in no run if a later
      packet was dispatched; and otherwise it still can be, if its fragments come again. */
  lemma RemovedIsExact(states: seq<State>, steps: seq<Step>, k: nat, tag: nat)
    requires TimelyRun(states, steps) && k < |steps| && Removed(states[k], states[k + 1], tag)
    ensures CanArrive(states[k + 1], tag) <==> !Overtaken(states[k + 1], tag)
  {
    RunKeeps(states, steps, k);
    RunAccepts(states, steps, k + 1);
    StepOf(states, steps, k);
    hide *;
    var s, t := states[k], states[k + 1];
    var r := Standing(s);
    var r' := RemovedHasTurn(s, r, steps[k], t, tag);
    NotThere(s, t, tag);
    TurnIsExact(t, r', tag);
  }

  lemma NotThere(s: State, t: State, tag: nat)
    requires Removed(s, t, tag)
    ensures !Arrived(t, tag)
  {
    hide Arrived;
  }

  lemma StepOf(states: seq<State>, steps: seq<Step>, k: nat)
    requires TimelyRun(states, steps) && k < |steps|
    ensures k + 1 < |states| && Next(states[k], steps[k], states[k + 1]) && Timely(states[k], steps[k])
  {
    hide Next, Timely;
  }

  /** In every state: an unreliable packet in front of which all reliable ones were dispatched. */
  lemma UnreliableArrivalIsExact(states: seq<State>, steps: seq<Step>, k: nat, tag: nat)
    requires TimelyRun(states, steps) && k < |states| && tag < |states[k].packets| && !states[k].packets[tag].Reliable()
    requires !Arrived(states[k], tag) && forall b :: 0 <= b < tag && states[k].packets[b].Reliable() ==> Arrived(states[k], b)
    ensures CanArrive(states[k], tag) <==> !Overtaken(states[k], tag)
  {
    RunKeeps(states, steps, k);
    RunAccepts(states, steps, k);
    hide *;
    var s := states[k];
    var r := Standing(s);
    HasTurn(s, r, tag);
    TurnIsExact(s, r, tag);
  }

  lemma HasTurn(s: State, r: nat, tag: nat)
    requires InvAt(s, r) && tag < |s.packets| && !s.packets[tag].Reliable()
    requires forall b :: 0 <= b < tag && s.packets[b].Reliable() ==> Arrived(s, b)
    ensures s.packets[tag].first <= r
  {
    InvMeans(s, r);
    hide InvAt, Num, ReliableQueue, UnreliableSettled, ReliableTags, TagsUpTo, History, Packet.Ok;
    NumbersOrdered(s.packets, tag);
    if s.packets[tag].first > r {
      LastIsLast(s.packets, tag);
      var b := PacketWith(s.packets, s.packets[tag].first);
      NumbersOrdered(s.packets, b);
      if tag < b {
        HistoryOrder(s.packets, tag, b);
      }
    }
  }

  // ---- which packets are removed before a later one is dispatched

  /** All entries belong to the channel's number and miss a fragment. */
  ghost predicate AllIncomplete(q: seq<Incoming>, incoming: uint16) {
    forall i :: 0 <= i < |q| ==> q[i].reliable == incoming && q[i].remaining > 0
  }

  function Range(a: nat, b: nat): (xs: seq<nat>)
    requires a <= b
    ensures |xs| == b - a && forall i :: 0 <= i < b - a ==> xs[i] == a + i
  {
    seq(b - a, i => a + i)
  }

  /** The walk when it has passed over n of them. */
  function PassedOver(n: nat, unreliable: uint16): Scan {
    Scan(n, n, if n < 2 then 0 else n - 2, unreliable, [], Range(0, n))
  }

  lemma {:induction false} IncompleteScan(q: seq<Incoming>, incoming: uint16, unreliable: uint16, n: nat)
    requires AllIncomplete(q, incoming) && n <= |q|
    ensures ScanOk(q, PassedOver(n, unreliable)) && ScanAll(q, incoming, PassedOver(n, unreliable)) == PassedOver(|q|, unreliable)
    decreases |q| - n
  {
    if n < |q| {
      assert Range(0, n) + [n] == Range(0, n + 1);
      assert ScanTurn(q, incoming, PassedOver(n, unreliable)) == PassedOver(n + 1, unreliable);
      IncompleteScan(q, incoming, unreliable, n + 1);
    }
  }

  lemma {:induction false} KeptRange(q: seq<Incoming>, a: nat, dropped: nat, queued: int)
    requires a <= |q| && dropped <= |q|
    ensures Kept(q, Range(a, |q|), dropped, queued) ==
      (if a <= queued < dropped then [q[queued]] else []) + q[if a < dropped then dropped else a..]
    decreases |q| - a
  {
    if a < |q| {
      KeptRange(q, a + 1, dropped, queued);
      assert Range(a, |q|)[1..] == Range(a + 1, |q|);
      assert q[a..] == [q[a]] + q[a + 1..];
    }
  }

  /** Of the incomplete packets whose turn it is, the walk keeps the last two, and the one just queued. */
  lemma TwoAreKept(c: Channel, queued: int)
    requires AllIncomplete(c.unreliables, c.incoming)
    ensures var q, d := c.unreliables, DispatchUnreliable(c, queued);
      && d.1 == [] && d.0.unreliable == c.unreliable
      && d.0.unreliables == if |q| <= 2 then q else (if 0 <= queued < |q| - 2 then [q[queued]] else []) + q[|q| - 2..]
  {
    hide ScanAll, Kept, AllIncomplete;
    var q := c.unreliables;
    IncompleteScan(q, c.incoming, c.unreliable, 0);
    assert Range(0, 0) == [];
    var t := PassedOver(|q|, c.unreliable);
    KeptRange(q, 0, t.dropped, queued);
    assert q[|q|..] == [] && q[0..] == q;
  }

  /** What the walk leaves of a queue q and a new entry behind it. */
  function LastTwo(q: seq<Incoming>, e: Incoming): seq<Incoming> {
    (if |q| < 2 then q else [q[|q| - 1]]) + [e]
  }

  lemma LastTwoKept(ch: Channel, e: Incoming)
    requires AllIncomplete(ch.unreliables + [e], ch.incoming)
    ensures var d := DispatchUnreliable(ch.(unreliables := ch.unreliables + [e]), |ch.unreliables|);
      d == (ch.(unreliables := LastTwo(ch.unreliables, e)), [])
  {
    hide DispatchUnreliable, AllIncomplete;
    var q := ch.unreliables;
    var next := ch.(unreliables := q + [e]);
    DispatchKeepsReliables(next, |q|);
    TwoAreKept(next, |q|);
    var d := DispatchUnreliable(next, |q|);
    if |q| >= 2 {
      assert [] + (q + [e])[|q| - 1..] == [q[|q| - 1]] + [e];
    }
    assert d.0.unreliables == LastTwo(q, e);
    assert d.0 == ch.(unreliables := LastTwo(q, e));
  }

  lemma LastPlace(q: seq<Incoming>, e: Incoming, k: nat)
    requires k < |LastTwo(q, e)| && LastTwo(q, e)[k] == e && forall i :: 0 <= i < |q| ==> q[i].unreliable < e.unreliable
    ensures forall f :: LastTwo(q, e)[k := f] == LastTwo(q, f)
  {
    assert k == |LastTwo(q, e)| - 1;
  }

  lemma BehindAllFound(q: seq<Incoming>, n: uint16, u: uint16)
    requires AllIncomplete(q, n) && forall i :: 0 <= i < |q| ==> q[i].unreliable < u
    ensures SearchUnreliable(q, n, u, n, |q|) == Before(|q|)
  {
  }

  lemma NewBehind(ch: Channel, c: Command)
    requires AllIncomplete(ch.unreliables, ch.incoming) && c.kind == SendUnreliableFragment && c.reliable == ch.incoming && 1 < c.count
    requires c.fragment < c.count && c.offset + |c.data| <= c.total
    ensures var e := NewIncoming(c, c.reliable, c.start);
      && Insert(ch.unreliables, |ch.unreliables|, e) == ch.unreliables + [e] && AllIncomplete(ch.unreliables + [e], ch.incoming)
      && e.unreliable == c.start && c.fragment < |e.got| && c.offset + |c.data| <= |e.packet| && !e.got[c.fragment]
      && var f := AddFragment(e, c);
      f.reliable == ch.incoming && f.remaining > 0 && f.unreliable == c.start && |f.got| == f.count && f.tag == c.tag
  {
  }

  /** The first fragment of a later packet than all that wait. */
  lemma BehindAll(ch: Channel, c: Command, maximumPacketSize: nat)
    requires AllIncomplete(ch.unreliables, ch.incoming) && BitsOk(ch.unreliables) && c.kind == SendUnreliableFragment
    requires c.reliable == ch.incoming && ch.unreliable < c.start && 1 < c.count && FragmentFits(c, maximumPacketSize)
    requires forall i :: 0 <= i < |ch.unreliables| ==> ch.unreliables[i].unreliable < c.start
    ensures c.fragment < c.count && c.offset + |c.data| <= c.total
    ensures var e := NewIncoming(c, c.reliable, c.start);
      && c.fragment < |e.got| && c.offset + |c.data| <= |e.packet|
      && ReceiveUnreliableFragment(ch, c, true, maximumPacketSize) ==
         Result(true, ch.(unreliables := LastTwo(ch.unreliables, AddFragment(e, c))), [])
  {
    hide *;
    var q, e := ch.unreliables, NewIncoming(c, c.reliable, c.start);
    WithinItself(c.reliable);
    FitsMeans(c, maximumPacketSize);
    BehindAllFound(q, c.reliable, c.start);
    NewBehind(ch, c);
    var next := ch.(unreliables := Insert(q, |q|, e));
    LastTwoKept(ch, e);
    QueueUnreliableSteps(ch, |q|, c);
    InsertedAt(q, |q|, e);
    QueuedStays(next, |q|);
    var d, k := DispatchUnreliable(next, |q|).0, PlaceOf(next, |q|);
    LastPlace(q, e, k);
    TakeUnreliableIs(d, k, c);
    FragmentHandled(ch, c, maximumPacketSize);
  }

  lemma WithinItself(n: uint16)
    ensures InWindow(n, n)
  {
  }

  lemma FitsMeans(c: Command, maximumPacketSize: nat)
    requires FragmentFits(c, maximumPacketSize)
    ensures c.fragment < c.count && c.offset + |c.data| <= c.total
  {
  }

  /** An unreliable packet of two fragments that follows reliable number 0. */
  ghost predicate Short(p: Packet, unreliable: nat) {
    && p.Ok() && p.kind == SendUnreliableFragment && p.first == 0 && p.unreliable == unreliable && |p.data| == 2 && p.size == 1 && p.Count() == 2
  }

  lemma IsShort(packets: seq<Packet>, data: seq<byte>)
    requires |data| == 2 && LastReliable(packets) == 0 && LastUnreliable(packets) < SPACE - 1
    ensures var p := NewPacket(packets, data, false, true, 1); Short(p, LastUnreliable(packets) + 1) && p.last == 0
  {
  }

  lemma ShortWire(p: Packet, u: nat, tag: nat)
    requires Short(p, u)
    ensures 0 < p.Pieces()
    ensures var c := p.Wire(tag, 0);
      && c.kind == SendUnreliableFragment && c.reliable == 0 && c.start == u && c.count == 2 && c.tag == tag && FragmentFits(c, 2)
      && |c.data| <= 2
  {
  }

  /** A receiver that has nothing but first fragments of earlier packets, those in q. */
  ghost predicate Collecting(s: State, q: seq<Incoming>, u: nat) {
    && s.sent == 0 && s.out == [] && s.channel == NEW_CHANNEL.(unreliables := q) && AllIncomplete(q, 0) && BitsOk(q)
    && forall i :: 0 <= i < |q| ==> q[i].unreliable < u
  }

  lemma LastTwoCollects(q: seq<Incoming>, e: Incoming, u: nat)
    requires AllIncomplete(q, 0) && BitsOk(q) && forall i :: 0 <= i < |q| ==> q[i].unreliable < u
    requires e.reliable == 0 && e.remaining > 0 && e.unreliable == u && |e.got| == e.count
    ensures AllIncomplete(LastTwo(q, e), 0) && BitsOk(LastTwo(q, e))
    ensures forall i :: 0 <= i < |LastTwo(q, e)| ==> LastTwo(q, e)[i].unreliable < u + 1
  {
  }

  /** Its first fragment arrives. */
  lemma FirstDelivery(s: State, q: seq<Incoming>, tag: nat, u: nat) returns (t: State, e: Incoming)
    requires Collecting(s, q, u) && tag < |s.packets| && Short(s.packets[tag], u)
    ensures Next(s, Deliver(tag, 0, true, 2), t) && Timely(s, Deliver(tag, 0, true, 2)) && t.packets == s.packets
    ensures e.tag == tag && Collecting(t, LastTwo(q, e), u + 1)
  {
    var p := s.packets[tag];
    ShortWire(p, u, tag);
    var c := p.Wire(tag, 0);
    ShortStep(s, tag, u);
    hide Packet.Wire, Packet.Count, Packet.Pieces, FragmentFits, InWindow, ReceiveUnreliableFragment, NewIncoming, Next, Timely, Short,
      AllIncomplete, BitsOk, LastTwo, AddFragment, Receive;
    ReceiveAllows(s.channel, c, 2);
    FitsMeans(c, 2);
    BehindAll(s.channel, c, 2);
    NewBehind(s.channel, c);
    e := AddFragment(NewIncoming(c, c.reliable, c.start), c);
    LastTwoCollects(q, e, u);
    t := s.(channel := NEW_CHANNEL.(unreliables := LastTwo(q, e)));
    assert s.out + [] == s.out;
  }

  lemma ShortStep(s: State, tag: nat, u: nat)
    requires tag < |s.packets| && Short(s.packets[tag], u) && s.sent == 0 && BitsOk(s.channel.reliables) && BitsOk(s.channel.unreliables)
    ensures var p := s.packets[tag];
      && 0 < p.Pieces() && Timely(s, Deliver(tag, 0, true, 2))
      && var a := Receive(s.channel, p.Wire(tag, 0), true, 2);
      Next(s, Deliver(tag, 0, true, 2), s.(channel := a.channel, out := s.out + a.out))
  {
    hide Receive, Packet.Count, BitsOk;
  }

  /** Three unreliable packets of two fragments each. Their first fragments arrive, and with the third the
      first packet is removed, although nothing was dispatched. */
  lemma ThirdRemovesFirst(a: seq<byte>, b: seq<byte>, c: seq<byte>) returns (states: seq<State>, steps: seq<Step>)
    requires |a| == |b| == |c| == 2
    ensures TimelyRun(states, steps) && |steps| == 6 && states[6].out == [] && Removed(states[5], states[6], 0)
    ensures CanArrive(states[6], 0)
  {
    hide *;
    var s0 := Start();
    NothingAccepted();
    var s1, p := ShortSend(s0, a, 0);
    var s2, q := ShortSend(s1, b, 1);
    var s3, r := ShortSend(s2, c, 2);
    assert s3.packets == [p, q, r];
    StartsCollecting(s0, s1, s2, s3);
    var s4, e := FirstDelivery(s3, [], 0, 1);
    var s5, f := FirstDelivery(s4, LastTwo([], e), 1, 2);
    var s6, g := FirstDelivery(s5, LastTwo(LastTwo([], e), f), 2, 3);
    states := [s0, s1, s2, s3, s4, s5, s6];
    steps := [Send(a, false, true, 1), Send(b, false, true, 1), Send(c, false, true, 1),
              Deliver(0, 0, true, 2), Deliver(1, 0, true, 2), Deliver(2, 0, true, 2)];
    SevenStates(states, steps);
    ThirdReplaces(s5, s6, e, f, g);
    NothingOvertakes(s6, 0);
    RemovedIsExact(states, steps, 5, 0);
  }

  lemma NothingAccepted()
    ensures Start().packets == [] && LastReliable([]) == 0 == LastUnreliable([])
  {
  }

  /** The sender accepts the next such packet. */
  lemma ShortSend(s: State, data: seq<byte>, u: nat) returns (t: State, p: Packet)
    requires |data| == 2 && LastReliable(s.packets) == 0 && LastUnreliable(s.packets) == u <= 2
    ensures Next(s, Send(data, false, true, 1), t) && Timely(s, Send(data, false, true, 1))
    ensures t == s.(packets := s.packets + [p]) && Short(p, u + 1)
    ensures LastReliable(t.packets) == 0 && LastUnreliable(t.packets) == u + 1
  {
    p := NewPacket(s.packets, data, false, true, 1);
    IsShort(s.packets, data);
    hide NewPacket;
    t := s.(packets := s.packets + [p]);
  }

  lemma StartsCollecting(s0: State, s1: State, s2: State, s3: State)
    requires s0 == Start() && s1 == s0.(packets := s1.packets) && s2 == s1.(packets := s2.packets) && s3 == s2.(packets := s3.packets)
    ensures Collecting(s3, [], 1)
  {
  }

  lemma SevenStates(states: seq<State>, steps: seq<Step>)
    requires |states| == 7 && |steps| == 6 && states[0] == Start()
    requires Next(states[0], steps[0], states[1]) && Timely(states[0], steps[0])
    requires Next(states[1], steps[1], states[2]) && Timely(states[1], steps[1])
    requires Next(states[2], steps[2], states[3]) && Timely(states[2], steps[2])
    requires Next(states[3], steps[3], states[4]) && Timely(states[3], steps[3])
    requires Next(states[4], steps[4], states[5]) && Timely(states[4], steps[4])
    requires Next(states[5], steps[5], states[6]) && Timely(states[5], steps[5])
    ensures TimelyRun(states, steps)
  {
    hide Next, Timely, Start;
  }

  lemma ThirdReplaces(s: State, t: State, e: Incoming, f: Incoming, g: Incoming)
    requires Collecting(s, LastTwo(LastTwo([], e), f), 3) && Collecting(t, LastTwo(LastTwo(LastTwo([], e), f), g), 4)
    requires e.tag == 0 && f.tag == 1 && g.tag == 2
    ensures t.out == [] && Removed(s, t, 0)
  {
    hide AllIncomplete, BitsOk;
    assert LastTwo([], e) == [e] && LastTwo([e], f) == [e, f] && LastTwo([e, f], g) == [f, g];
    assert s.channel.unreliables[0].tag == 0;
  }

  lemma NothingOvertakes(s: State, tag: nat)
    requires s.out == []
    ensures !Overtaken(s, tag)
  {
  }
}
