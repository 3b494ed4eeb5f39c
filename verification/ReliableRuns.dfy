/** Reliable packets alone: what unreliable ones do to the receiver's channel can be left out of a run,
    whenever they arrive, and what holds of timely runs holds of the reliable half of every run. */
module ReliableRuns {
  import opened Words
  import opened SequenceNumbers
  import opened IncomingChannel
  import opened DeliveryModel
  import opened DeliveryProof
  import opened DeliveryInvariant
  import opened DeliveryTheorems

  // ---- the reliable half of a state

  function OnlyReliable(out: seq<Incoming>): seq<Incoming> {
    if out == [] then []
    else OnlyReliable(out[..|out| - 1]) + if IsReliable(out[|out| - 1]) then [out[|out| - 1]] else []
  }

  function Halved(ch: Channel): Channel { Channel(ch.incoming, 0, ch.reliables, []) }

  function Half(s: State): State { s.(channel := Halved(s.channel), out := OnlyReliable(s.out)) }

  /** An entry of an unreliable packet. */
  ghost predicate Loose(packets: seq<Packet>, e: Incoming) {
    !IsReliable(e) && e.tag < |packets| && !packets[e.tag].Reliable() && |e.got| == e.count
  }

  ghost predicate AllLoose(packets: seq<Packet>, q: seq<Incoming>) {
    forall k :: 0 <= k < |q| ==> Loose(packets, q[k])
  }

  /** What is reliable and what is not are told apart by their kind. */
  ghost predicate Sorted(s: State) {
    AllLoose(s.packets, s.channel.unreliables) && forall k :: 0 <= k < |s.out| ==> IsReliable(s.out[k]) || Loose(s.packets, s.out[k])
  }

  ghost predicate AllReliable(q: seq<Incoming>) {
    forall k :: 0 <= k < |q| ==> IsReliable(q[k])
  }

  lemma {:induction false} OnlyJoin(a: seq<Incoming>, b: seq<Incoming>)
    ensures OnlyReliable(a + b) == OnlyReliable(a) + OnlyReliable(b)
    decreases |b|
  {
    if b == [] {
      assert a + b == a;
    } else {
      OnlyJoin(a, b[..|b| - 1]);
      assert (a + b)[..|a + b| - 1] == a + b[..|b| - 1];
    }
  }

  lemma {:induction false} OnlyAll(q: seq<Incoming>)
    requires AllReliable(q)
    ensures OnlyReliable(q) == q
  {
    if q != [] {
      OnlyAll(q[..|q| - 1]);
    }
  }

  lemma {:induction false} OnlyNone(packets: seq<Packet>, q: seq<Incoming>)
    requires AllLoose(packets, q)
    ensures OnlyReliable(q) == []
  {
    if q != [] {
      OnlyNone(packets, q[..|q| - 1]);
    }
  }

  // ---- the unreliable handlers stay on their side

  lemma {:induction false} ScanLoose(packets: seq<Packet>, q: seq<Incoming>, incoming: uint16, s: Scan)
    requires ScanOk(q, s) && AllLoose(packets, q) && AllLoose(packets, s.moved)
    ensures AllLoose(packets, ScanAll(q, incoming, s).moved)
    decreases |q| - s.current
  {
    hide Loose, InWindow;
    if s.current < |q| && (q[s.current].reliable == incoming || !InWindow(q[s.current].reliable, incoming)) {
      ScanLoose(packets, q, incoming, ScanTurn(q, incoming, s));
    }
  }

  lemma {:induction false} KeptLoose(packets: seq<Packet>, q: seq<Incoming>, stays: seq<nat>, dropped: nat, queued: int)
    requires AllLoose(packets, q) && forall k :: 0 <= k < |stays| ==> stays[k] < |q|
    ensures AllLoose(packets, Kept(q, stays, dropped, queued))
  {
    hide Loose;
    if stays != [] {
      KeptLoose(packets, q, stays[1..], dropped, queued);
    }
  }

  lemma DispatchLoose(packets: seq<Packet>, ch: Channel, queued: int)
    requires AllLoose(packets, ch.unreliables)
    ensures var d := DispatchUnreliable(ch, queued);
      && AllLoose(packets, d.0.unreliables) && AllLoose(packets, d.1)
      && d.0.reliables == ch.reliables && d.0.incoming == ch.incoming
  {
    hide Loose, ScanAll, Kept;
    var q, t := ch.unreliables, WholeWalk(ch);
    ScanLoose(packets, q, ch.incoming, Scan(0, 0, 0, ch.unreliable, [], []));
    KeptLoose(packets, q, t.stays, t.dropped, queued);
  }

  /** The outcome of an unreliable command. */
  ghost predicate Aside(packets: seq<Packet>, ch: Channel, t: Result) {
    && t.channel.reliables == ch.reliables && t.channel.incoming == ch.incoming
    && AllLoose(packets, t.channel.unreliables) && AllLoose(packets, t.out)
  }

  lemma NewLoose(packets: seq<Packet>, q: seq<Incoming>, i: nat, e: Incoming)
    requires AllLoose(packets, q) && Loose(packets, e) && i <= |q|
    ensures AllLoose(packets, Insert(q, i, e))
  {
    hide Loose;
  }

  lemma WireLoose(packets: seq<Packet>, tag: nat, f: nat, n: uint16, u: uint16)
    requires tag < |packets| && packets[tag].Ok() && !packets[tag].Reliable() && f < packets[tag].Pieces()
    ensures Loose(packets, NewIncoming(packets[tag].Wire(tag, f), n, u))
  {
  }

  lemma UnreliableAside(packets: seq<Packet>, ch: Channel, c: Command, room: bool)
    requires AllLoose(packets, ch.unreliables) && Loose(packets, NewIncoming(c, c.reliable, c.start))
    ensures Aside(packets, ch, ReceiveUnreliable(ch, c, room))
  {
    hide Loose, SearchUnreliable, InWindow, NewIncoming, DispatchUnreliable;
    var place := SearchUnreliable(ch.unreliables, c.reliable, c.start, ch.incoming, |ch.unreliables|);
    var next := ch.(unreliables := Insert(ch.unreliables, place.index, NewIncoming(c, c.reliable, c.start)));
    NewLoose(packets, ch.unreliables, place.index, NewIncoming(c, c.reliable, c.start));
    DispatchLoose(packets, next, place.index);
  }

  lemma TakeAside(packets: seq<Packet>, ch: Channel, i: nat, c: Command, out: seq<Incoming>)
    requires i < |ch.unreliables| && SamePacket(ch.unreliables[i], c) && |ch.unreliables[i].got| == c.count
    requires c.fragment < c.count && c.offset + |c.data| <= c.total
    requires AllLoose(packets, ch.unreliables) && AllLoose(packets, out)
    ensures Aside(packets, ch, TakeUnreliableFragment(ch, i, c, out))
  {
    var f := AddFragment(ch.unreliables[i], c);
    assert Loose(packets, ch.unreliables[i]) && Loose(packets, f);
    hide Loose, DispatchUnreliable, AddFragment;
    DispatchLoose(packets, ch.(unreliables := ch.unreliables[i := f]), -1);
  }

  lemma QueueAside(packets: seq<Packet>, ch: Channel, i: nat, c: Command)
    requires i <= |ch.unreliables| && c.kind == SendUnreliableFragment && c.fragment < c.count && c.offset + |c.data| <= c.total
    requires AllLoose(packets, ch.unreliables) && Loose(packets, NewIncoming(c, c.reliable, c.start))
    ensures Aside(packets, ch, QueueUnreliableFragment(ch, i, c))
  {
    hide *;
    var next := ch.(unreliables := Insert(ch.unreliables, i, NewIncoming(c, c.reliable, c.start)));
    NewLoose(packets, ch.unreliables, i, NewIncoming(c, c.reliable, c.start));
    QueueUnreliableSteps(ch, i, c);
    DispatchLoose(packets, next, i);
    var d := DispatchUnreliable(next, i);
    NothingLoose(packets);
    TakeAside(packets, d.0, PlaceOf(next, i), c, []);
    AsideThen(packets, ch, d.0, d.1, TakeUnreliableFragment(d.0, PlaceOf(next, i), c, []));
  }

  lemma NothingLoose(packets: seq<Packet>)
    ensures AllLoose(packets, [])
  {
  }

  lemma AsideThen(packets: seq<Packet>, ch: Channel, d: Channel, out: seq<Incoming>, t: Result)
    requires Aside(packets, d, t) && AllLoose(packets, out) && d.reliables == ch.reliables && d.incoming == ch.incoming
    ensures Aside(packets, ch, Result(true, t.channel, out + t.out))
  {
    hide Loose;
  }

  lemma UnreliableFragmentAside(packets: seq<Packet>, ch: Channel, c: Command, room: bool, maximumPacketSize: nat)
    requires BitsOk(ch.unreliables) && c.kind == SendUnreliableFragment
    requires AllLoose(packets, ch.unreliables) && Loose(packets, NewIncoming(c, c.reliable, c.start))
    ensures Aside(packets, ch, ReceiveUnreliableFragment(ch, c, room, maximumPacketSize))
  {
    hide Loose, InWindow, SearchUnreliable, NewIncoming;
    var place := SearchUnreliable(ch.unreliables, c.reliable, c.start, ch.incoming, |ch.unreliables|);
    if FragmentFits(c, maximumPacketSize) {
      if place.At? && SamePacket(ch.unreliables[place.index], c) {
        TakeAside(packets, ch, place.index, c, []);
      }
      QueueAside(packets, ch, place.index, c);
    }
    hide TakeUnreliableFragment, QueueUnreliableFragment;
  }

  // ---- the reliable handlers do the same on either channel

  /** t on the channel ch, and u on its reliable half. */
  ghost predicate Matches(packets: seq<Packet>, t: Result, u: Result) {
    && u == Result(t.ok, Halved(t.channel), OnlyReliable(t.out))
    && AllLoose(packets, t.channel.unreliables) && AllReliable(t.channel.reliables)
    && forall k :: 0 <= k < |t.out| ==> IsReliable(t.out[k]) || Loose(packets, t.out[k])
  }

  lemma Untouched(packets: seq<Packet>, ch: Channel, ok: bool)
    requires AllLoose(packets, ch.unreliables) && AllReliable(ch.reliables)
    ensures Matches(packets, Result(ok, ch, []), Result(ok, Halved(ch), []))
  {
    hide Loose;
  }

  lemma DispatchMatches(packets: seq<Packet>, ch: Channel)
    requires AllLoose(packets, ch.unreliables) && AllReliable(ch.reliables)
    ensures var d, e := DispatchReliable(ch), DispatchReliable(Halved(ch));
      Matches(packets, Result(true, d.0, d.1), Result(true, e.0, e.1))
  {
    hide Loose, LastNumber, DispatchUnreliable, OnlyReliable;
    var k := ReadyCount(ch.reliables, ch.incoming);
    if k == 0 {
      Untouched(packets, ch, true);
    } else {
      var next := ch.(incoming := ReadyNumber(ch.reliables, ch.incoming), unreliable := 0, reliables := ch.reliables[k..]);
      DispatchLoose(packets, next, -1);
      NothingToDispatch(Halved(next));
      var r := DispatchUnreliable(next, -1);
      OnlyJoin(ch.reliables[..k], r.1);
      OnlyAll(ch.reliables[..k]);
      OnlyNone(packets, r.1);
      assert ch.reliables[..k] + [] == ch.reliables[..k];
    }
  }

  lemma NothingToDispatch(ch: Channel)
    requires ch.unreliables == []
    ensures DispatchUnreliable(ch, -1) == (ch, [])
  {
    assert WholeWalk(ch) == Scan(0, 0, 0, ch.unreliable, [], []);
    assert Kept([], [], 0, -1) + ch.unreliables[0..] == [];
  }

  lemma ReliableMatches(packets: seq<Packet>, ch: Channel, c: Command, room: bool)
    requires AllLoose(packets, ch.unreliables) && AllReliable(ch.reliables) && c.kind == SendReliable
    ensures Matches(packets, ReceiveReliable(ch, c, room), ReceiveReliable(Halved(ch), c, room))
  {
    hide Loose, SearchReliable, InWindow, DispatchReliable;
    var place := SearchReliable(ch.reliables, c.reliable, ch.incoming, |ch.reliables|);
    var next := ch.(reliables := Insert(ch.reliables, place.index, NewIncoming(c, c.reliable, 0)));
    Untouched(packets, ch, true);
    Untouched(packets, ch, false);
    DispatchMatches(packets, next);
    assert Halved(next) == Halved(ch).(reliables := next.reliables);
  }

  lemma TakeMatches(packets: seq<Packet>, ch: Channel, i: nat, c: Command)
    requires BitsOk(ch.reliables) && i < |ch.reliables| && SamePacket(ch.reliables[i], c)
    requires c.fragment < c.count && c.offset + |c.data| <= c.total
    requires AllLoose(packets, ch.unreliables) && AllReliable(ch.reliables)
    ensures Matches(packets, TakeFragment(ch, i, c, []), TakeFragment(Halved(ch), i, c, []))
  {
    var f := AddFragment(ch.reliables[i], c);
    assert IsReliable(f);
    hide Loose, AddFragment, DispatchReliable;
    var next := ch.(reliables := ch.reliables[i := f]);
    Untouched(packets, ch, true);
    Untouched(packets, next, true);
    DispatchMatches(packets, next);
    assert Halved(next) == Halved(ch).(reliables := next.reliables);
    assert [] + DispatchReliable(next).1 == DispatchReliable(next).1;
    assert [] + DispatchReliable(Halved(next)).1 == DispatchReliable(Halved(next)).1;
  }

  lemma QueueMatches(packets: seq<Packet>, ch: Channel, i: nat, c: Command)
    requires BitsOk(ch.reliables) && c.kind == SendFragment && i <= |ch.reliables|
    requires c.fragment < c.count && c.offset + |c.data| <= c.total
    requires AllLoose(packets, ch.unreliables) && AllReliable(ch.reliables)
    ensures Matches(packets, QueueFragment(ch, i, c), QueueFragment(Halved(ch), i, c))
  {
    hide *;
    var q := Insert(ch.reliables, i, NewIncoming(c, c.start, 0));
    InsertReliable(ch.reliables, i, c);
    var next := ch.(reliables := q);
    HalfOf(ch);
    HalfOf(next);
    QueueFragmentSteps(ch, i, c);
    QueueFragmentSteps(Halved(ch), i, c);
    DispatchMatches(packets, next);
    var d, e, k := DispatchReliable(next), DispatchReliable(Halved(next)), i - ReadyCount(q, ch.incoming);
    MatchesMean(packets, Result(true, d.0, d.1), Result(true, e.0, e.1));
    TakeMatches(packets, d.0, k, c);
    MatchesThen(packets, d.0, d.1, TakeFragment(d.0, k, c, []), TakeFragment(Halved(d.0), k, c, []));
  }

  lemma InsertReliable(q: seq<Incoming>, i: nat, c: Command)
    requires AllReliable(q) && c.kind == SendFragment && i <= |q|
    ensures AllReliable(Insert(q, i, NewIncoming(c, c.start, 0)))
  {
  }

  lemma HalfOf(ch: Channel)
    ensures Halved(ch).reliables == ch.reliables && Halved(ch).incoming == ch.incoming
    ensures forall q: seq<Incoming> :: Halved(ch).(reliables := q) == Halved(ch.(reliables := q))
  {
  }

  lemma MatchesMean(packets: seq<Packet>, t: Result, u: Result)
    requires Matches(packets, t, u)
    ensures u.channel == Halved(t.channel) && u.out == OnlyReliable(t.out)
    ensures AllLoose(packets, t.channel.unreliables) && AllReliable(t.channel.reliables)
    ensures forall k :: 0 <= k < |t.out| ==> IsReliable(t.out[k]) || Loose(packets, t.out[k])
  {
  }

  lemma MatchesThen(packets: seq<Packet>, d: Channel, out: seq<Incoming>, t: Result, u: Result)
    requires Matches(packets, t, u) && t.ok && forall k :: 0 <= k < |out| ==> IsReliable(out[k]) || Loose(packets, out[k])
    ensures Matches(packets, Result(true, t.channel, out + t.out), Result(true, u.channel, OnlyReliable(out) + u.out))
  {
    hide Loose, IsReliable;
    OnlyJoin(out, t.out);
  }

  lemma FragmentMatches(packets: seq<Packet>, ch: Channel, c: Command, room: bool, maximumPacketSize: nat)
    requires BitsOk(ch.reliables) && c.kind == SendFragment
    requires AllLoose(packets, ch.unreliables) && AllReliable(ch.reliables)
    ensures Matches(packets, ReceiveFragment(ch, c, room, maximumPacketSize), ReceiveFragment(Halved(ch), c, room, maximumPacketSize))
  {
    hide Loose, InWindow, SearchReliable;
    Untouched(packets, ch, true);
    Untouched(packets, ch, false);
    var place := SearchReliable(ch.reliables, c.start, ch.incoming, |ch.reliables|);
    if FragmentFits(c, maximumPacketSize) {
      if place.At? && SamePacket(ch.reliables[place.index], c) {
        TakeMatches(packets, ch, place.index, c);
      } else if !place.At? {
        QueueMatches(packets, ch, place.index, c);
      }
    }
    hide TakeFragment, QueueFragment, Matches;
  }

  // ---- steps and runs

  lemma EntriesReliable(packets: seq<Packet>, q: seq<Incoming>, r: nat, sent: nat)
    requires ReliableQueue(packets, q, r, sent)
    ensures AllReliable(q)
  {
    hide Num, Win;
    forall k | 0 <= k < |q| ensures IsReliable(q[k]) {
      assert ReliableEntry(packets, q[k], r, sent);
    }
  }

  /** Whether a step brings an unreliable packet. */
  predicate BringsUnreliable(s: State, step: Step) {
    step.Deliver? && step.tag < |s.packets| && !s.packets[step.tag].Reliable()
  }

  lemma HalfMeans(s: State)
    requires Inv(Half(s)) && Sorted(s)
    ensures History(s.packets) && AllReliable(s.channel.reliables) && AllLoose(s.packets, s.channel.unreliables)
    ensures BitsOk(s.channel.reliables) && BitsOk(s.channel.unreliables)
  {
    var h := Half(s);
    var r :| InvAt(h, r);
    InvMeans(h, r);
    hide InvAt, ReliableQueue, History;
    EntriesReliable(h.packets, h.channel.reliables, r, h.sent);
    EntriesHaveBits(h.packets, h.channel, r, h.sent);
  }

  /** A datagram with an unreliable packet leaves the reliable half as it is. */
  lemma UnreliableStep(s: State, step: Step, t: State)
    requires Inv(Half(s)) && Sorted(s) && Next(s, step, t) && BringsUnreliable(s, step)
    ensures Half(t) == Half(s) && Sorted(t)
  {
    HalfMeans(s);
    var p := s.packets[step.tag];
    hide *;
    NumbersOrdered(s.packets, step.tag);
    BringsMeans(s, step);
    DeliverMeans(s, t, step.tag, step.piece, step.room, step.maximumPacketSize);
    var c := p.Wire(step.tag, step.piece);
    UnreliableKind(p);
    WireUnreliable(p, step.tag, step.piece);
    WireLoose(s.packets, step.tag, step.piece, c.reliable, c.start);
    ReceiveIs(s.channel, c, step.room, step.maximumPacketSize);
    if |c.data| <= step.maximumPacketSize {
      if p.kind == SendUnreliable {
        UnreliableAside(s.packets, s.channel, c, step.room);
      } else {
        UnreliableFragmentAside(s.packets, s.channel, c, step.room, step.maximumPacketSize);
      }
    } else {
      NothingAside(s.packets, s.channel);
    }
    AsideStep(s, t, c, Receive(s.channel, c, step.room, step.maximumPacketSize), p.first + step.piece);
  }

  lemma BringsMeans(s: State, step: Step)
    requires BringsUnreliable(s, step)
    ensures step.Deliver? && step.tag < |s.packets| && !s.packets[step.tag].Reliable()
  {
  }

  lemma NothingAside(packets: seq<Packet>, ch: Channel)
    requires AllLoose(packets, ch.unreliables)
    ensures Aside(packets, ch, Result(false, ch, []))
  {
  }

  lemma AsideStep(s: State, t: State, c: Command, a: Result, i: nat)
    requires Sorted(s) && Aside(s.packets, s.channel, a) && c.kind != SendReliable && c.kind != SendFragment
    requires t == s.(channel := a.channel, out := s.out + a.out, acks := if Acknowledges(a, c) then s.acks + {i} else s.acks)
    ensures Half(t) == Half(s) && Sorted(t)
  {
    hide Loose, Acknowledged;
    OnlyJoin(s.out, a.out);
    OnlyNone(s.packets, a.out);
    assert OnlyReliable(s.out) + [] == OnlyReliable(s.out);
  }

  /** Any other step is one on the reliable half as well, and a timely one. */
  lemma ReliableStep(s: State, step: Step, t: State)
    requires Inv(Half(s)) && Sorted(s) && Next(s, step, t) && !BringsUnreliable(s, step)
    ensures Next(Half(s), step, Half(t)) && Timely(Half(s), step) && Sorted(t)
  {
    hide *;
    if step.Deliver? {
      HalfMeans(s);
      DeliverHalves(s, step, t);
    } else {
      SenderStep(s, step, t);
    }
  }

  lemma SenderStep(s: State, step: Step, t: State)
    requires Sorted(s) && Next(s, step, t) && !step.Deliver?
    ensures Next(Half(s), step, Half(t)) && Timely(Half(s), step) && Sorted(t)
  {
    hide Loose, NewPacket, WindowWraps, InTransit, Lengths, OnlyReliable, Packet.Reliable, IsReliable, LastReliable, Num;
    forall e: Incoming | Loose(s.packets, e) ensures Loose(t.packets, e) {
      LooseGrows(s.packets, t.packets, e);
    }
  }

  lemma LooseGrows(packets: seq<Packet>, packets': seq<Packet>, e: Incoming)
    requires Loose(packets, e) && packets <= packets'
    ensures Loose(packets', e)
  {
  }

  lemma DeliverHalves(s: State, step: Step, t: State)
    requires History(s.packets) && AllReliable(s.channel.reliables) && AllLoose(s.packets, s.channel.unreliables)
    requires BitsOk(s.channel.reliables) && BitsOk(s.channel.unreliables)
    requires Sorted(s) && Next(s, step, t) && !BringsUnreliable(s, step) && step.Deliver?
    ensures Next(Half(s), step, Half(t)) && Timely(Half(s), step) && Sorted(t)
  {
    hide *;
    var tag, f := step.tag, step.piece;
    if tag < |s.packets| {
      NumbersOrdered(s.packets, tag);
    }
    DeliverMeans(s, t, tag, f, step.room, step.maximumPacketSize);
    var p := s.packets[tag];
    BringsNot(s, step);
    UnreliableKind(p);
    WireKind(p, tag, f);
    var c := p.Wire(tag, f);
    HalfBits(s.channel);
    ReceiveIs(s.channel, c, step.room, step.maximumPacketSize);
    ReceiveIs(Halved(s.channel), c, step.room, step.maximumPacketSize);
    if |c.data| > step.maximumPacketSize {
      Untouched(s.packets, s.channel, false);
    } else if p.kind == SendReliable {
      ReliableMatches(s.packets, s.channel, c, step.room);
    } else {
      FragmentMatches(s.packets, s.channel, c, step.room, step.maximumPacketSize);
    }
    MatchingStep(s, step, t, c, Receive(s.channel, c, step.room, step.maximumPacketSize),
                 Receive(Halved(s.channel), c, step.room, step.maximumPacketSize));
  }

  lemma BringsNot(s: State, step: Step)
    requires step.Deliver? && step.tag < |s.packets| && !BringsUnreliable(s, step)
    ensures s.packets[step.tag].Reliable() && Timely(Half(s), step)
  {
  }

  lemma HalfBits(ch: Channel)
    requires BitsOk(ch.reliables)
    ensures BitsOk(Halved(ch).reliables) && BitsOk(Halved(ch).unreliables)
  {
  }

  lemma MatchingStep(s: State, step: Step, t: State, c: Command, a: Result, b: Result)
    requires Sorted(s) && Matches(s.packets, a, b) && step.Deliver? && step.tag < |s.packets| && step.piece < s.packets[step.tag].Pieces()
    requires s.packets[step.tag].Reliable() && s.packets[step.tag].first + step.piece <= s.sent && Fresh(s, s.packets[step.tag])
    requires s.packets[step.tag].Ok() && c == s.packets[step.tag].Wire(step.tag, step.piece)
    requires BitsOk(Halved(s.channel).reliables) && BitsOk(Halved(s.channel).unreliables)
    requires b == Receive(Halved(s.channel), c, step.room, step.maximumPacketSize)
    requires t == s.(channel := a.channel, out := s.out + a.out,
                     acks := if Acknowledges(a, c) then s.acks + {s.packets[step.tag].first + step.piece} else s.acks)
    ensures Next(Half(s), step, Half(t)) && Sorted(t)
  {
    hide Loose, Acknowledged, Receive, Packet.Wire, Packet.Ok, BitsOk, IsReliable, Packet.Pieces;
    OnlyJoin(s.out, a.out);
    assert Acknowledges(a, c) == Acknowledges(b, c);
    assert Half(t) == Half(s).(channel := b.channel, out := Half(s).out + b.out,
                               acks := if Acknowledges(b, c) then s.acks + {s.packets[step.tag].first + step.piece} else s.acks);
  }

  /** The reliable half of every state of every run keeps the invariant. */
  lemma {:induction false} HalvesKeep(states: seq<State>, steps: seq<Step>, k: nat)
    requires Run(states, steps) && k < |states|
    ensures Inv(Half(states[k])) && Sorted(states[k])
  {
    hide Inv, Next, Timely, Half, Sorted, BringsUnreliable;
    if k == 0 {
      StartInv();
      InvStarts();
      StartHalf();
    } else {
      HalvesKeep(states, steps, k - 1);
      var s, t := states[k - 1], states[k];
      assert Next(s, steps[k - 1], t);
      if BringsUnreliable(s, steps[k - 1]) {
        UnreliableStep(s, steps[k - 1], t);
      } else {
        ReliableStep(s, steps[k - 1], t);
        NextKeeps(Half(s), steps[k - 1], Half(t));
      }
    }
  }

  lemma StartHalf()
    ensures Half(Start()) == Start() && Sorted(Start())
  {
  }

  // ---- the theorems

  lemma {:induction false} SameDelivered(out: seq<Incoming>)
    ensures Delivered(OnlyReliable(out)) == Delivered(out)
  {
    if out != [] {
      SameDelivered(out[..|out| - 1]);
      var rest, e := OnlyReliable(out[..|out| - 1]), out[|out| - 1];
      assert (rest + [e])[..|rest|] == rest;
      assert rest + [] == rest;
    }
  }

  /** In every run, whatever the network loses, duplicates or reorders, and however long it keeps
      unreliable packets, the reliable packets dispatched are the first ones that enet_peer_send
      accepted, in order, each once and with the same bytes. */
  lemma ReliableDelivery(states: seq<State>, steps: seq<Step>, k: nat)
    requires Run(states, steps) && k < |states|
    ensures Delivered(states[k].out) <= Accepted(states[k].packets)
  {
    HalvesKeep(states, steps, k);
    DeliversInOrder(Half(states[k]));
    SameDelivered(states[k].out);
  }

  lemma {:induction false} SameTags(packets: seq<Packet>, out: seq<Incoming>)
    requires forall k :: 0 <= k < |out| ==> IsReliable(out[k]) || Loose(packets, out[k])
    ensures ReliableTags(packets, OnlyReliable(out)) == ReliableTags(packets, out)
  {
    if out != [] {
      SameTags(packets, out[..|out| - 1]);
      var rest, e := OnlyReliable(out[..|out| - 1]), out[|out| - 1];
      assert (rest + [e])[..|rest|] == rest;
      assert rest + [] == rest;
    }
  }

  /** In every run, whatever was sent lies at most seven windows ahead of the receiver, and whatever was
      acknowledged was dispatched or waits in the receiver's queue. */
  lemma WindowSafety(states: seq<State>, steps: seq<Step>, k: nat)
    requires Run(states, steps) && k < |states|
    ensures WithinWindows(states[k])
  {
    HalvesKeep(states, steps, k);
    KeepsWithinWindows(Half(states[k]));
    HalfWithin(states[k]);
  }

  lemma HalfWithin(s: State)
    requires WithinWindows(Half(s)) && Sorted(s)
    ensures WithinWindows(s)
  {
    hide Has, Win, Num, ReliableTags, TagsUpTo, OnlyReliable, Loose;
    SameTags(s.packets, s.out);
    var r: nat :|
      && s.channel.incoming == Num(r) && DispatchedUpTo(Half(s), r) && r <= s.sent
      && Win(s.sent) <= Win(r) + FREE_WINDOWS - 1
      && forall i :: i in s.acks ==> Win(i) < Win(r) + FREE_WINDOWS - 1 && Has(s.packets, s.channel.reliables, r, i);
    assert DispatchedUpTo(s, r);
  }

  /** In every run, when the last command the sender kept has been acknowledged, every reliable packet it
      ever accepted has been dispatched. */
  lemma AllAcknowledgedIsAllDelivered(states: seq<State>, steps: seq<Step>, k: nat)
    requires Run(states, steps) && k < |states|
    requires states[k].sent == LastReliable(states[k].packets) && states[k].unacked == {}
    ensures Delivered(states[k].out) == Accepted(states[k].packets)
  {
    HalvesKeep(states, steps, k);
    DeliversAll(Half(states[k]));
    SameDelivered(states[k].out);
  }
}
