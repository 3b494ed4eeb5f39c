/** enet_host_bandwidth_throttle: how a host shares its bandwidth among its peers, and the counters of
    connected peers that its loops rely on. Bandwidths and amounts of data are unbounded numbers. */
module BandwidthThrottle {
  import opened Words
  import opened Arithmetic
  import opened Sums

  const SCALE := 32
  const INTERVAL := 1000

  datatype PeerState = Disconnected | Connecting | AcknowledgingConnect | ConnectionPending | ConnectionSucceeded
    | Connected | DisconnectLater | Disconnecting | AcknowledgingDisconnect | Zombie

  /** The fields of ENetPeer that take part. */
  datatype Peer = Peer(state: PeerState, incomingBandwidth: nat, outgoingBandwidth: nat, incomingEpoch: uint32, outgoingEpoch: uint32,
                       incomingData: nat, outgoingData: nat, packetThrottle: nat, packetThrottleLimit: nat)

  const RESET_PEER := Peer(Disconnected, 0, 0, 0, 0, 0, 0, SCALE, SCALE)

  predicate Online(p: Peer) { p.state == Connected || p.state == DisconnectLater }

  // ---- counts of peers

  function Count(b: bool): nat { if b then 1 else 0 }

  function OnlineCounts(ps: seq<Peer>): seq<nat> {
    seq(|ps|, i requires 0 <= i < |ps| => Count(Online(ps[i])))
  }

  function LimitedCounts(ps: seq<Peer>): seq<nat> {
    seq(|ps|, i requires 0 <= i < |ps| => Count(Online(ps[i]) && ps[i].incomingBandwidth != 0))
  }

  // ---- the first stage: what may be sent to each peer

  /** A connected peer whose limit was not fixed at this time yet. */
  predicate Open(p: Peer, now: uint32) { Online(p) && p.outgoingEpoch != now }

  function OpenCounts(ps: seq<Peer>, now: uint32): seq<nat> {
    seq(|ps|, i requires 0 <= i < |ps| => Count(Open(ps[i], now)))
  }

  /** What the open peers were sent since the last time. */
  function OpenData(ps: seq<Peer>, now: uint32): seq<nat> {
    seq(|ps|, i requires 0 <= i < |ps| => if Open(ps[i], now) then ps[i].outgoingData else 0)
  }

  /** What a peer can receive in the time elapsed. */
  function Share(p: Peer, elapsed: nat): nat { p.incomingBandwidth * elapsed / 1000 }

  /** The shares of the peers that were open before and are fixed now. */
  function FixedShares(before: seq<Peer>, ps: seq<Peer>, now: uint32, elapsed: nat): seq<nat>
    requires |before| == |ps|
  {
    seq(|ps|, i requires 0 <= i < |ps| => if Open(before[i], now) && !Open(ps[i], now) then Share(before[i], elapsed) else 0)
  }

  function Least(a: nat, b: nat): nat { if a < b then a else b }

  function Limited(p: Peer, limit: nat): Peer {
    p.(packetThrottleLimit := limit, packetThrottle := Least(p.packetThrottle, limit), incomingData := 0, outgoingData := 0)
  }

  /** The peer cannot take its part of what may be sent, and is fixed at its own share. */
  predicate Exceeds(p: Peer, throttle: nat, elapsed: nat) {
    p.incomingBandwidth != 0 && throttle * p.outgoingData / SCALE > Share(p, elapsed)
  }

  function OwnLimit(p: Peer, elapsed: nat): nat
    requires p.outgoingData > 0
  {
    var limit := Share(p, elapsed) * SCALE / p.outgoingData;
    if limit == 0 then 1 else limit
  }

  function Fixed(p: Peer, now: uint32, elapsed: nat): Peer
    requires p.outgoingData > 0
  {
    Limited(p, OwnLimit(p, elapsed)).(outgoingEpoch := now)
  }

  /** A peer before the stage and in it. */
  ghost predicate Stands(p: Peer, q: Peer, now: uint32, elapsed: nat) {
    if Open(p, now) && !Open(q, now) then
      p.incomingBandwidth != 0 && Share(p, elapsed) < p.outgoingData && q == Fixed(p, now, elapsed)
    else q == p
  }

  ghost predicate AllStand(before: seq<Peer>, ps: seq<Peer>, now: uint32, elapsed: nat) {
    |before| == |ps| && forall i :: 0 <= i < |ps| ==> Stands(before[i], ps[i], now, elapsed)
  }

  /** The bandwidth that is left of total, and the data that it is left for; the two are one number if the
      host's bandwidth is unlimited. */
  ghost predicate Budget(before: seq<Peer>, ps: seq<Peer>, now: uint32, elapsed: nat, total: nat, limited: bool, bandwidth: int, data: int) {
    && |before| == |ps|
    && if limited then
         && bandwidth == total - Sum(FixedShares(before, ps, now, elapsed)) >= 0
         && data == Sum(OnlineData(before)) - Sum(FixedShares(before, ps, now, elapsed)) >= Sum(OpenData(ps, now))
       else bandwidth == data
  }

  /** At this throttle the open peers keep within what is left. */
  ghost predicate Balance(before: seq<Peer>, ps: seq<Peer>, now: uint32, elapsed: nat, total: nat, limited: bool,
                          bandwidth: int, data: int, throttle: nat)
  {
    && Budget(before, ps, now, elapsed, total, limited, bandwidth, data) && throttle <= SCALE
    && if limited then throttle * Sum(OpenData(ps, now)) <= SCALE * bandwidth else throttle == SCALE
  }

  function Throttle(bandwidth: int, data: int): int
    requires data <= bandwidth || data != 0
  {
    if data <= bandwidth then SCALE else bandwidth * SCALE / data
  }

  /** With nothing spent beyond what there was, the new throttle keeps within what is left. */
  lemma ThrottleFits(bandwidth: nat, data: int, open: nat)
    requires open <= data
    ensures data <= bandwidth || data != 0
    ensures 0 <= Throttle(bandwidth, data) <= SCALE
    ensures Throttle(bandwidth, data) * open <= SCALE * bandwidth
    ensures Throttle(bandwidth, data) < SCALE ==> SCALE * bandwidth < (Throttle(bandwidth, data) + 1) * data
  {
    if data > bandwidth {
      DivMod(bandwidth * SCALE, data);
      var t := bandwidth * SCALE / data;
      MulMonotone(open, data, t);
      if t > SCALE {
        MulMonotone(SCALE + 1, t, data);
        assert false;
      }
    }
  }

  lemma ThrottleBounds(bandwidth: nat, data: nat)
    requires bandwidth < data
    ensures 0 <= Throttle(bandwidth, data) <= SCALE
    ensures Throttle(bandwidth, data) * data <= SCALE * bandwidth < (Throttle(bandwidth, data) + 1) * data
  {
    ThrottleFits(bandwidth, data, 0);
    DivMod(bandwidth * SCALE, data);
  }

  lemma LessFactor(x: nat, y: nat, n: nat)
    requires x * n < y * n
    ensures x < y
  {
    if y <= x {
      MulMonotone(y, x, n);
    }
  }

  /** Fixing peers at their shares never raises the common throttle: what a share takes from the bandwidth
      weighs more than what it takes from the data. */
  lemma ThrottleFalls(bandwidth: nat, data: nat, spent: nat)
    requires spent <= bandwidth && spent <= data && (data <= bandwidth || data != 0)
    ensures data - spent <= bandwidth - spent || data - spent != 0
    ensures Throttle(bandwidth - spent, data - spent) <= Throttle(bandwidth, data)
  {
    if data > bandwidth {
      hide Throttle;
      var b, d := bandwidth - spent, data - spent;
      var t, t' := Throttle(bandwidth, data), Throttle(b, d);
      ThrottleBounds(b, d);
      ThrottleBounds(bandwidth, data);
      MulMonotone(t', SCALE, spent);
      assert t' * data == t' * d + t' * spent;
      LessFactor(t', t + 1, data);
    } else {
      ThrottleFits(bandwidth - spent, data - spent, 0);
    }
  }

  /** The throttle that the code computes keeps the balance. */
  lemma ThrottleBalances(before: seq<Peer>, ps: seq<Peer>, now: uint32, elapsed: nat, total: nat, limited: bool, bandwidth: int, data: int)
    requires Budget(before, ps, now, elapsed, total, limited, bandwidth, data)
    ensures data <= bandwidth || data != 0
    ensures 0 <= Throttle(bandwidth, data) <= SCALE
    ensures Balance(before, ps, now, elapsed, total, limited, bandwidth, data, Throttle(bandwidth, data))
  {
    hide FixedShares, OpenData, Sum;
    if limited {
      ThrottleFits(bandwidth, data, Sum(OpenData(ps, now)));
    }
  }

  lemma BalanceIsBudget(before: seq<Peer>, ps: seq<Peer>, now: uint32, elapsed: nat, total: nat, limited: bool,
                        bandwidth: int, data: int, throttle: nat)
    requires Balance(before, ps, now, elapsed, total, limited, bandwidth, data, throttle)
    ensures Budget(before, ps, now, elapsed, total, limited, bandwidth, data)
  {
  }

  lemma OpenUpdate(ps: seq<Peer>, i: nat, q: Peer, now: uint32)
    requires i < |ps|
    ensures Sum(OpenCounts(ps[i := q], now)) == Sum(OpenCounts(ps, now)) - Count(Open(ps[i], now)) + Count(Open(q, now))
    ensures Sum(OpenData(ps[i := q], now)) ==
      Sum(OpenData(ps, now)) - (if Open(ps[i], now) then ps[i].outgoingData else 0) + (if Open(q, now) then q.outgoingData else 0)
  {
    hide Open;
    SumUpdate(OpenCounts(ps, now), i, Count(Open(q, now)));
    SumUpdate(OpenData(ps, now), i, if Open(q, now) then q.outgoingData else 0);
    assert OpenCounts(ps[i := q], now) == OpenCounts(ps, now)[i := Count(Open(q, now))];
    assert OpenData(ps[i := q], now) == OpenData(ps, now)[i := if Open(q, now) then q.outgoingData else 0];
  }

  lemma SharesUpdate(before: seq<Peer>, ps: seq<Peer>, i: nat, q: Peer, now: uint32, elapsed: nat)
    requires i < |ps| == |before| && Open(ps[i], now) && !Open(q, now) && Open(before[i], now)
    ensures Sum(FixedShares(before, ps[i := q], now, elapsed)) == Sum(FixedShares(before, ps, now, elapsed)) + Share(before[i], elapsed)
  {
    hide Open, Share;
    SumUpdate(FixedShares(before, ps, now, elapsed), i, Share(before[i], elapsed));
    assert FixedShares(before, ps[i := q], now, elapsed) == FixedShares(before, ps, now, elapsed)[i := Share(before[i], elapsed)];
  }

  lemma ExceedsMeans(p: Peer, throttle: nat, elapsed: nat)
    requires Exceeds(p, throttle, elapsed) && throttle <= SCALE
    ensures SCALE * Share(p, elapsed) <= throttle * p.outgoingData
    ensures Share(p, elapsed) < p.outgoingData && p.incomingBandwidth != 0
  {
    hide Share;
    MulMonotone(throttle, SCALE, p.outgoingData);
  }

  /** Fixing a peer at its share keeps the balance. */
  lemma FixKeeps(before: seq<Peer>, ps: seq<Peer>, i: nat, now: uint32, elapsed: nat, total: nat, limited: bool,
                 bandwidth: int, data: int, throttle: nat)
    requires AllStand(before, ps, now, elapsed) && Balance(before, ps, now, elapsed, total, limited, bandwidth, data, throttle)
    requires i < |ps| && Open(ps[i], now) && Exceeds(ps[i], throttle, elapsed)
    ensures ps[i].outgoingData > 0
    ensures var share, next := Share(ps[i], elapsed), ps[i := Fixed(ps[i], now, elapsed)];
      && AllStand(before, next, now, elapsed)
      && Balance(before, next, now, elapsed, total, limited, bandwidth - share, data - share, throttle)
      && Sum(OpenCounts(next, now)) == Sum(OpenCounts(ps, now)) - 1
  {
    hide Share, OwnLimit, FixedShares, OpenData, OpenCounts, Sum, Exceeds;
    var p := ps[i];
    assert Stands(before[i], p, now, elapsed) && p == before[i];
    ExceedsMeans(p, throttle, elapsed);
    var q := Fixed(p, now, elapsed);
    OpenUpdate(ps, i, q, now);
    SharesUpdate(before, ps, i, q, now, elapsed);
    OpenDatum(ps, i, now);
    var d := Sum(OpenData(ps, now));
    assert throttle * (d - p.outgoingData) == throttle * d - throttle * p.outgoingData;
  }

  lemma OpenDatum(ps: seq<Peer>, i: nat, now: uint32)
    requires i < |ps| && Open(ps[i], now)
    ensures ps[i].outgoingData <= Sum(OpenData(ps, now)) && 1 <= Sum(OpenCounts(ps, now))
  {
    SumLeast(OpenData(ps, now), i);
    SumLeast(OpenCounts(ps, now), i);
  }

  /** What the first stage makes of a peer: its own share where it could not take its part at the common
      throttle, and the common throttle where it can. */
  ghost predicate Settled(p: Peer, q: Peer, now: uint32, elapsed: nat, throttle: nat) {
    if !Open(p, now) then q == p
    else if Open(q, now) then q == Limited(p, throttle) && !Exceeds(p, throttle, elapsed)
    else p.incomingBandwidth != 0 && Share(p, elapsed) < p.outgoingData && q == Fixed(p, now, elapsed)
  }

  ghost predicate AllSettled(before: seq<Peer>, ps: seq<Peer>, now: uint32, elapsed: nat, throttle: nat) {
    |before| == |ps| && forall i :: 0 <= i < |ps| ==> Settled(before[i], ps[i], now, elapsed, throttle)
  }

  /** What the open peers that were not fixed had been sent. */
  function LevelData(before: seq<Peer>, ps: seq<Peer>, now: uint32): seq<nat>
    requires |before| == |ps|
  {
    seq(|ps|, i requires 0 <= i < |ps| => if Open(before[i], now) && Open(ps[i], now) then before[i].outgoingData else 0)
  }

  lemma LevelIsOpen(before: seq<Peer>, ps: seq<Peer>, now: uint32, elapsed: nat)
    requires AllStand(before, ps, now, elapsed)
    ensures LevelData(before, ps, now) == OpenData(ps, now)
  {
    hide Fixed;
    forall i | 0 <= i < |ps| ensures Stands(before[i], ps[i], now, elapsed) {
    }
  }

  /** No open peer with a bandwidth of its own gets more than it can take. */
  ghost predicate NoneExceeds(ps: seq<Peer>, now: uint32, elapsed: nat, throttle: int) {
    throttle >= 0 && forall i :: 0 <= i < |ps| && Open(ps[i], now) ==> !Exceeds(ps[i], throttle, elapsed)
  }

  lemma FixedIsClosed(p: Peer, now: uint32, elapsed: nat)
    requires p.outgoingData > 0
    ensures !Open(Fixed(p, now, elapsed), now)
  {
    hide OwnLimit;
  }

  /** Who was fixed could not take its part at this throttle. */
  ghost predicate OnlyExceeding(before: seq<Peer>, ps: seq<Peer>, now: uint32, elapsed: nat, throttle: int) {
    && throttle >= 0 && |before| == |ps|
    && forall i :: 0 <= i < |ps| ==> ps[i] == before[i] || (Open(before[i], now) && Exceeds(before[i], throttle, elapsed))
  }

  lemma ExceedsMore(p: Peer, low: nat, high: nat, elapsed: nat)
    requires low <= high && Exceeds(p, low, elapsed)
    ensures Exceeds(p, high, elapsed)
  {
    hide Share;
    MulMonotone(low, high, p.outgoingData);
  }

  ghost predicate SameOpen(ps: seq<Peer>, qs: seq<Peer>, now: uint32) {
    |ps| == |qs| && forall i :: 0 <= i < |ps| ==> Open(qs[i], now) == Open(ps[i], now)
  }

  /** Just those peers were fixed that could not take their part at the first throttle. */
  ghost predicate FixedAre(before: seq<Peer>, after: seq<Peer>, now: uint32, elapsed: nat, first: int) {
    && first >= 0 && |before| == |after|
    && forall i :: 0 <= i < |after| && Open(before[i], now) ==> (Open(after[i], now) <==> !Exceeds(before[i], first, elapsed))
  }

  lemma PassesEnd(before: seq<Peer>, mid: seq<Peer>, after: seq<Peer>, now: uint32, elapsed: nat, first: int)
    requires OnlyExceeding(before, mid, now, elapsed, first) && NoneExceeds(mid, now, elapsed, first) && SameOpen(mid, after, now)
    requires AllStand(before, mid, now, elapsed)
    ensures FixedAre(before, after, now, elapsed, first)
  {
    hide Exceeds, Fixed;
    forall i | 0 <= i < |after| && Open(before[i], now) ensures Open(after[i], now) <==> !Exceeds(before[i], first, elapsed) {
      assert Stands(before[i], mid[i], now, elapsed);
    }
  }

  /** The level of the peers that are left: the throttle for what the fixed ones leave over. */
  ghost predicate LevelIs(before: seq<Peer>, after: seq<Peer>, now: uint32, elapsed: nat, bandwidth: nat, level: int)
    requires |before| == |after|
  {
    var spent := Sum(FixedShares(before, after, now, elapsed));
    var total, data := bandwidth * elapsed / 1000 - spent, Sum(OnlineData(before)) - spent;
    if bandwidth == 0 then level == SCALE else (data <= total || data != 0) && level == Throttle(total, data)
  }

  /** The throttle that the first pass goes by. */
  function FirstThrottle(ps: seq<Peer>, elapsed: nat, bandwidth: nat): int {
    if bandwidth == 0 || Sum(OnlineData(ps)) == 0 then SCALE else Throttle(bandwidth * elapsed / 1000, Sum(OnlineData(ps)))
  }

  lemma FirstIs(before: seq<Peer>, now: uint32, elapsed: nat, outgoing: nat, bandwidth: int, data: int)
    requires if outgoing != 0 then bandwidth == outgoing * elapsed / 1000 && data == Sum(OnlineData(before)) else bandwidth == data
    ensures data <= bandwidth || data != 0
    ensures Throttle(bandwidth, data) == FirstThrottle(before, elapsed, outgoing)
    ensures OnlyExceeding(before, before, now, elapsed, Throttle(bandwidth, data))
  {
    if outgoing != 0 {
      ThrottleFits(bandwidth, data, 0);
    }
  }

  /** No later pass goes by a higher throttle than the first. */
  lemma NotAboveFirst(before: seq<Peer>, was: seq<Peer>, now: uint32, elapsed: nat, outgoing: nat, bandwidth: int, data: int)
    requires Budget(before, was, now, elapsed, outgoing * elapsed / 1000, outgoing != 0, bandwidth, data)
    ensures data <= bandwidth || data != 0
    ensures Throttle(bandwidth, data) <= FirstThrottle(before, elapsed, outgoing)
  {
    hide OnlineData, OpenData, FixedShares, Sum, Throttle;
    if outgoing != 0 {
      var all := Sum(OnlineData(before));
      if all == 0 {
        ThrottleFits(bandwidth, data, 0);
      } else {
        ThrottleFalls(outgoing * elapsed / 1000, all, Sum(FixedShares(before, was, now, elapsed)));
      }
    } else {
      EvenThrottle(bandwidth);
    }
  }

  lemma EvenThrottle(bandwidth: int)
    ensures Throttle(bandwidth, bandwidth) == SCALE
  {
  }

  lemma LevelMeans(before: seq<Peer>, mid: seq<Peer>, after: seq<Peer>, now: uint32, elapsed: nat, outgoing: nat, bandwidth: int, data: int)
    requires Budget(before, mid, now, elapsed, outgoing * elapsed / 1000, outgoing != 0, bandwidth, data)
    requires |before| == |after| && FixedShares(before, after, now, elapsed) == FixedShares(before, mid, now, elapsed)
    requires data <= bandwidth || data != 0
    ensures LevelIs(before, after, now, elapsed, outgoing, Throttle(bandwidth, data))
  {
    hide OnlineData, OpenData, FixedShares, Sum;
  }

  /** A further pass, at a throttle that is not higher, fixes only peers that exceeded before. */
  lemma PassKeeps(before: seq<Peer>, was: seq<Peer>, ps: seq<Peer>, now: uint32, elapsed: nat, first: nat, throttle: nat)
    requires AllStand(before, was, now, elapsed) && AllStand(before, ps, now, elapsed)
    requires OnlyExceeding(before, was, now, elapsed, first) && OnlyExceeding(was, ps, now, elapsed, throttle) && throttle <= first
    ensures OnlyExceeding(before, ps, now, elapsed, first)
    ensures NoneExceeds(was, now, elapsed, first) ==> NoneExceeds(ps, now, elapsed, first)
  {
    hide Exceeds, Fixed, Share;
    forall i | 0 <= i < |ps|
      ensures ps[i] == before[i] || (Open(before[i], now) && Exceeds(before[i], first, elapsed))
    {
      assert Stands(before[i], was[i], now, elapsed);
      if ps[i] != was[i] {
        ExceedsMore(before[i], throttle, first, elapsed);
      }
    }
    if NoneExceeds(was, now, elapsed, first) {
      forall i | 0 <= i < |ps| && Open(ps[i], now) ensures !Exceeds(ps[i], first, elapsed) {
        assert Stands(before[i], was[i], now, elapsed) && Stands(before[i], ps[i], now, elapsed);
      }
    }
  }

  function OnlineData(ps: seq<Peer>): seq<nat> {
    seq(|ps|, i requires 0 <= i < |ps| => if Online(ps[i]) then ps[i].outgoingData else 0)
  }

  lemma NothingFixed(ps: seq<Peer>, now: uint32, elapsed: nat)
    ensures AllStand(ps, ps, now, elapsed) && Sum(FixedShares(ps, ps, now, elapsed)) == 0
    ensures Sum(OpenData(ps, now)) <= Sum(OnlineData(ps)) && Sum(OpenCounts(ps, now)) <= Sum(OnlineCounts(ps))
  {
    SumOrder(OpenData(ps, now), OnlineData(ps));
    SumOrder(OpenCounts(ps, now), OnlineCounts(ps));
    var zeros := seq(|ps|, _ => 0);
    assert FixedShares(ps, ps, now, elapsed) == zeros;
    SumZero(zeros);
  }

  lemma NoneLimited(ps: seq<Peer>, now: uint32, elapsed: nat, throttle: nat)
    requires Sum(LimitedCounts(ps)) == 0
    ensures NoneExceeds(ps, now, elapsed, throttle)
  {
    SumZero(LimitedCounts(ps));
    forall i | 0 <= i < |ps| && Open(ps[i], now) ensures !Exceeds(ps[i], throttle, elapsed) {
      assert LimitedCounts(ps)[i] == 0;
    }
  }

  lemma StartBudget(ps: seq<Peer>, now: uint32, elapsed: nat, total: nat, limited: bool, bandwidth: int, data: int)
    requires if limited then bandwidth == total && data == Sum(OnlineData(ps)) else bandwidth == data
    ensures Budget(ps, ps, now, elapsed, total, limited, bandwidth, data) && AllStand(ps, ps, now, elapsed)
    ensures Sum(OpenCounts(ps, now)) <= Sum(OnlineCounts(ps))
  {
    hide AllStand, FixedShares, OpenData, OpenCounts, OnlineData, OnlineCounts, Sum;
    NothingFixed(ps, now, elapsed);
  }

  lemma NoneOpen(before: seq<Peer>, ps: seq<Peer>, now: uint32, elapsed: nat, level: nat)
    requires AllStand(before, ps, now, elapsed) && Sum(OpenCounts(ps, now)) == 0 && level >= 0
    ensures AllSettled(before, ps, now, elapsed, level) && NoneExceeds(ps, now, elapsed, level) && SameOpen(ps, ps, now)
    ensures LevelData(before, ps, now) == OpenData(ps, now) && Sum(OpenData(ps, now)) == 0
  {
    hide Fixed, Limited, Exceeds;
    SumZero(OpenCounts(ps, now));
    forall i | 0 <= i < |ps| ensures Stands(before[i], ps[i], now, elapsed) && !Open(ps[i], now) {
      assert OpenCounts(ps, now)[i] == 0;
    }
    SumZero(OpenData(ps, now));
  }

  lemma Conserved(before: seq<Peer>, mid: seq<Peer>, ps: seq<Peer>, now: uint32, elapsed: nat, total: nat, limited: bool,
                  bandwidth: int, data: int, level: nat)
    requires Budget(before, mid, now, elapsed, total, limited, bandwidth, data)
    requires |ps| == |mid| && LevelData(before, ps, now) == OpenData(mid, now)
    requires FixedShares(before, ps, now, elapsed) == FixedShares(before, mid, now, elapsed)
    requires Balance(before, mid, now, elapsed, total, limited, bandwidth, data, level) || Sum(OpenData(mid, now)) == 0
    ensures limited ==>
      SCALE * Sum(FixedShares(before, ps, now, elapsed)) + level * Sum(LevelData(before, ps, now)) <= SCALE * total
  {
    hide FixedShares, LevelData, OpenData, Sum;
  }

  lemma OwnLimitFits(p: Peer, elapsed: nat)
    requires p.outgoingData > 0 && Share(p, elapsed) < p.outgoingData
    ensures 1 <= OwnLimit(p, elapsed) <= SCALE
  {
    hide Share;
    var x := Share(p, elapsed) * SCALE;
    DivMod(x, p.outgoingData);
    var q := x / p.outgoingData;
    if q > SCALE {
      MulMonotone(SCALE + 1, q, p.outgoingData);
      assert false;
    }
  }

  /** The stage changes neither who is connected nor who is limited, and keeps each throttle within its limit. */
  lemma SettledCounts(before: seq<Peer>, ps: seq<Peer>, now: uint32, elapsed: nat, level: nat)
    requires AllSettled(before, ps, now, elapsed, level) && level <= SCALE
    requires forall i :: 0 <= i < |before| ==> before[i].packetThrottle <= before[i].packetThrottleLimit <= SCALE
    ensures OnlineCounts(ps) == OnlineCounts(before) && LimitedCounts(ps) == LimitedCounts(before)
    ensures forall i :: 0 <= i < |ps| ==> ps[i].packetThrottle <= ps[i].packetThrottleLimit <= SCALE
  {
    hide OwnLimit, Share, Exceeds;
    forall i | 0 <= i < |ps|
      ensures ps[i].state == before[i].state && ps[i].incomingBandwidth == before[i].incomingBandwidth
      ensures ps[i].packetThrottle <= ps[i].packetThrottleLimit <= SCALE
    {
      assert Settled(before[i], ps[i], now, elapsed, level);
      if Open(before[i], now) && !Open(ps[i], now) {
        OwnLimitFits(before[i], elapsed);
      }
    }
  }

  // ---- the second stage: what each peer may send

  /** A connected peer whose own bandwidth was not granted at this time yet. */
  predicate Asking(p: Peer, now: uint32) { Online(p) && p.incomingEpoch != now }

  function AskingCounts(ps: seq<Peer>, now: uint32): seq<nat> {
    seq(|ps|, i requires 0 <= i < |ps| => Count(Asking(ps[i], now)))
  }

  /** The bandwidths of the peers that were asking before and have been granted them. */
  function Granted(before: seq<Peer>, ps: seq<Peer>, now: uint32): seq<nat>
    requires |before| == |ps|
  {
    seq(|ps|, i requires 0 <= i < |ps| => if Asking(before[i], now) && !Asking(ps[i], now) then before[i].outgoingBandwidth else 0)
  }

  /** A peer is granted its bandwidth when it is below the level, or when it has no limit of its own. */
  ghost predicate Grants(p: Peer, q: Peer, now: uint32, level: nat) {
    if Asking(p, now) && !Asking(q, now) then
      q == p.(incomingEpoch := now) && (p.outgoingBandwidth == 0 || p.outgoingBandwidth < level)
    else q == p
  }

  ghost predicate AllGrants(before: seq<Peer>, ps: seq<Peer>, now: uint32, level: nat) {
    |before| == |ps| && forall i :: 0 <= i < |ps| ==> Grants(before[i], ps[i], now, level)
  }

  /** What is left is enough for the level for all that remain; spare counts the connected peers that
      were not asking to begin with. */
  ghost predicate Left(before: seq<Peer>, ps: seq<Peer>, now: uint32, total: nat, spare: nat, bandwidth: int, remaining: int, level: nat) {
    && AllGrants(before, ps, now, level)
    && bandwidth == total - Sum(Granted(before, ps, now)) && level * remaining <= bandwidth
    && remaining == spare + Sum(AskingCounts(ps, now))
  }

  lemma GrantUpdate(before: seq<Peer>, ps: seq<Peer>, i: nat, now: uint32)
    requires |before| == |ps| && i < |ps| && Asking(ps[i], now) && before[i] == ps[i]
    ensures var next := ps[i := ps[i].(incomingEpoch := now)];
      && Sum(AskingCounts(next, now)) == Sum(AskingCounts(ps, now)) - 1
      && Sum(Granted(before, next, now)) == Sum(Granted(before, ps, now)) + ps[i].outgoingBandwidth
  {
    var next := ps[i := ps[i].(incomingEpoch := now)];
    SumUpdate(AskingCounts(ps, now), i, 0);
    SumUpdate(Granted(before, ps, now), i, ps[i].outgoingBandwidth);
    assert AskingCounts(next, now) == AskingCounts(ps, now)[i := 0];
    assert Granted(before, next, now) == Granted(before, ps, now)[i := ps[i].outgoingBandwidth];
  }

  lemma GrantKeeps(before: seq<Peer>, ps: seq<Peer>, i: nat, now: uint32, total: nat, spare: nat, bandwidth: int, remaining: int, level: nat)
    requires Left(before, ps, now, total, spare, bandwidth, remaining, level) && i < |ps| && Asking(ps[i], now)
    requires ps[i].outgoingBandwidth == 0 || ps[i].outgoingBandwidth < level
    ensures Left(before, ps[i := ps[i].(incomingEpoch := now)], now, total, spare, bandwidth - ps[i].outgoingBandwidth, remaining - 1, level)
  {
    hide Granted, AskingCounts, Sum;
    assert Grants(before[i], ps[i], now, level);
    GrantUpdate(before, ps, i, now);
    assert level * (remaining - 1) == level * remaining - level;
  }

  /** The level never sinks from one pass to the next. */
  lemma LevelRises(before: seq<Peer>, ps: seq<Peer>, now: uint32, total: nat, spare: nat, bandwidth: int, remaining: int, level: nat)
    requires Left(before, ps, now, total, spare, bandwidth, remaining, level) && remaining > 0
    ensures 0 <= bandwidth && level <= bandwidth / remaining
    ensures Left(before, ps, now, total, spare, bandwidth, remaining, bandwidth / remaining)
  {
    hide Granted, AskingCounts, Sum;
    MulMonotone(0, level, remaining);
    DivMod(bandwidth, remaining);
    var l := bandwidth / remaining;
    if l < level {
      MulMonotone(l + 1, level, remaining);
      assert false;
    }
    forall k | 0 <= k < |ps| ensures Grants(before[k], ps[k], now, l) {
      assert Grants(before[k], ps[k], now, level);
    }
  }

  /** Max-min sharing at a level: each asking peer gets what it asks for, up to the level. */
  function Demands(ps: seq<Peer>, now: uint32, level: nat): seq<nat> {
    seq(|ps|, i requires 0 <= i < |ps| => if Asking(ps[i], now) then Least(ps[i].outgoingBandwidth, level) else 0)
  }

  /** The asking peers with a bandwidth of their own. */
  function Askers(ps: seq<Peer>, now: uint32): seq<nat> {
    seq(|ps|, i requires 0 <= i < |ps| => Count(Asking(ps[i], now) && ps[i].outgoingBandwidth > 0))
  }

  /** At the end of the loop every peer has its own bandwidth, not above the level, or asks for at least the level. */
  ghost predicate Level(before: seq<Peer>, ps: seq<Peer>, now: uint32, level: nat) {
    && AllGrants(before, ps, now, level)
    && forall i :: 0 <= i < |ps| && Asking(ps[i], now) ==> 0 < ps[i].outgoingBandwidth && level <= ps[i].outgoingBandwidth
  }

  lemma DemandsSplit(before: seq<Peer>, ps: seq<Peer>, now: uint32, level: nat)
    requires Level(before, ps, now, level)
    ensures Sum(Demands(before, now, level)) == Sum(Granted(before, ps, now)) + level * Sum(AskingCounts(ps, now))
  {
    forall i | 0 <= i < |ps|
      ensures Demands(before, now, level)[i] == Granted(before, ps, now)[i] + level * AskingCounts(ps, now)[i]
    {
      assert Grants(before[i], ps[i], now, level);
    }
    SumLinear(Demands(before, now, level), Granted(before, ps, now), AskingCounts(ps, now), level);
  }

  /** A level of 0 tells a peer that it is not limited at all. That happens just when the host has
      less bandwidth than there are peers that ask for some. */
  lemma LevelIsZero(before: seq<Peer>, ps: seq<Peer>, now: uint32, level: nat, total: nat)
    requires Level(before, ps, now, level) && Sum(Demands(before, now, level)) <= total && Sum(Askers(before, now)) > 0
    requires Sum(AskingCounts(ps, now)) > 0 ==> total - Sum(Demands(before, now, level)) < Sum(AskingCounts(ps, now))
    ensures level == 0 <==> total < Sum(Askers(before, now))
  {
    if level == 0 {
      SumZero(Demands(before, now, level));
      forall i | 0 <= i < |ps| ensures AskingCounts(ps, now)[i] == Askers(before, now)[i] {
        assert Grants(before[i], ps[i], now, level);
      }
      assert AskingCounts(ps, now) == Askers(before, now);
    } else {
      SumOrder(Askers(before, now), Demands(before, now, level));
    }
  }

  lemma LeftGrants(before: seq<Peer>, ps: seq<Peer>, now: uint32, total: nat, spare: nat, bandwidth: int, remaining: int, level: nat)
    requires Left(before, ps, now, total, spare, bandwidth, remaining, level)
    ensures AllGrants(before, ps, now, level) && remaining >= 0
  {
  }

  lemma StartLeft(ps: seq<Peer>, now: uint32, total: nat) returns (spare: nat)
    ensures spare == Sum(OnlineCounts(ps)) - Sum(AskingCounts(ps, now))
    ensures Left(ps, ps, now, total, spare, total, Sum(OnlineCounts(ps)), 0)
  {
    SumOrder(AskingCounts(ps, now), OnlineCounts(ps));
    SumZero(Granted(ps, ps, now));
    spare := Sum(OnlineCounts(ps)) - Sum(AskingCounts(ps, now));
  }

  lemma AllGranted(before: seq<Peer>, ps: seq<Peer>, now: uint32, total: nat, spare: nat, bandwidth: int, remaining: int, level: nat)
    requires Left(before, ps, now, total, spare, bandwidth, remaining, level) && remaining == 0
    ensures Level(before, ps, now, level)
  {
    SumZero(AskingCounts(ps, now));
    forall i | 0 <= i < |ps| ensures !Asking(ps[i], now) {
      assert AskingCounts(ps, now)[i] == 0;
    }
  }

  lemma Shared(before: seq<Peer>, ps: seq<Peer>, now: uint32, total: nat, spare: nat, bandwidth: int, remaining: int, level: nat)
    requires Left(before, ps, now, total, spare, bandwidth, remaining, level) && Level(before, ps, now, level) && remaining >= 0
    requires remaining > 0 ==> level == bandwidth / remaining
    ensures Sum(Demands(before, now, level)) <= total
    ensures spare == 0 && Sum(AskingCounts(ps, now)) > 0 ==> total - Sum(Demands(before, now, level)) < Sum(AskingCounts(ps, now))
  {
    hide Granted, AskingCounts, Sum, Demands, Level, AllGrants;
    DemandsSplit(before, ps, now, level);
    var n := Sum(AskingCounts(ps, now));
    MulMonotone(n, remaining, level);
    if remaining > 0 {
      MulMonotone(0, level, remaining);
      DivMod(bandwidth, remaining);
    }
  }

  lemma GrantedCounts(before: seq<Peer>, ps: seq<Peer>, now: uint32, level: nat)
    requires AllGrants(before, ps, now, level)
    requires forall i :: 0 <= i < |before| ==> before[i].packetThrottle <= before[i].packetThrottleLimit <= SCALE
    ensures OnlineCounts(ps) == OnlineCounts(before) && LimitedCounts(ps) == LimitedCounts(before)
    ensures forall i :: 0 <= i < |ps| ==> ps[i].packetThrottle <= ps[i].packetThrottleLimit <= SCALE
  {
    forall i | 0 <= i < |ps|
      ensures ps[i].state == before[i].state && ps[i].incomingBandwidth == before[i].incomingBandwidth
      ensures ps[i].packetThrottle <= ps[i].packetThrottleLimit <= SCALE
    {
      assert Grants(before[i], ps[i], now, level);
    }
  }

  /** The incoming bandwidth that each connected peer is told, with its place among the peers. */
  function Announced(ps: seq<Peer>, now: uint32, level: nat): seq<(nat, nat)> {
    if ps == [] then []
    else
      var n, p := |ps| - 1, ps[|ps| - 1];
      Announced(ps[..n], now, level)
        + if Online(p) then [(n, if p.incomingEpoch == now then p.outgoingBandwidth else level)] else []
  }

  /** The first stage: the peers that could not take their part at the first throttle are fixed at their
      shares, the others get the level that the rest allows and can take it, and all of them together
      keep within the host's bandwidth. */
  ghost predicate SharesOutgoing(before: seq<Peer>, after: seq<Peer>, now: uint32, elapsed: nat, bandwidth: nat, level: nat) {
    && level <= SCALE && AllSettled(before, after, now, elapsed, level)
    && FixedAre(before, after, now, elapsed, FirstThrottle(before, elapsed, bandwidth))
    && (Sum(OpenCounts(after, now)) > 0 ==> LevelIs(before, after, now, elapsed, bandwidth, level))
    && (bandwidth != 0 ==>
        SCALE * Sum(FixedShares(before, after, now, elapsed)) + level * Sum(LevelData(before, after, now)) <= SCALE * (bandwidth * elapsed / 1000))
  }

  /** The second stage: each peer is granted its own bandwidth or the level, whichever is less, all of
      them together within the host's bandwidth; and if no connected peer had been served at this
      time already, no more is left over than rounding takes. */
  ghost predicate SharesIncoming(before: seq<Peer>, after: seq<Peer>, now: uint32, bandwidth: nat, connected: nat, level: nat) {
    && Level(before, after, now, level) && Sum(Demands(before, now, level)) <= bandwidth
    && (Sum(AskingCounts(before, now)) == connected && Sum(AskingCounts(after, now)) > 0 ==>
        bandwidth - Sum(Demands(before, now, level)) < Sum(AskingCounts(after, now)))
  }

  /** What becomes of a peer in the first stage, field by field. A connected peer that was not fixed at this time
      starts counting its data over and has a new limit, which its throttle does not exceed; first is the throttle
      at which it is tried, level the one that the others get. */
  predicate Treated(p: Peer, q: Peer, now: uint32, elapsed: nat, first: int, level: int) {
    && q.state == p.state && q.incomingBandwidth == p.incomingBandwidth && q.outgoingBandwidth == p.outgoingBandwidth
    && q.incomingEpoch == p.incomingEpoch
    && if (p.state == Connected || p.state == DisconnectLater) && p.outgoingEpoch != now then
         var own := p.incomingBandwidth * elapsed / 1000;
         && q.incomingData == 0 && q.outgoingData == 0
         && q.packetThrottle == (if p.packetThrottle > q.packetThrottleLimit then q.packetThrottleLimit else p.packetThrottle)
         && if p.incomingBandwidth != 0 && first * p.outgoingData / 32 > own then
              && p.outgoingData > 0 && q.outgoingEpoch == now
              && q.packetThrottleLimit == (if own * 32 / p.outgoingData == 0 then 1 else own * 32 / p.outgoingData)
            else q.outgoingEpoch == p.outgoingEpoch && q.packetThrottleLimit == level
       else
         && q.incomingData == p.incomingData && q.outgoingData == p.outgoingData && q.outgoingEpoch == p.outgoingEpoch
         && q.packetThrottle == p.packetThrottle && q.packetThrottleLimit == p.packetThrottleLimit
  }

  lemma AllTreated(before: seq<Peer>, after: seq<Peer>, now: uint32, elapsed: nat, bandwidth: nat, level: nat)
    requires SharesOutgoing(before, after, now, elapsed, bandwidth, level)
    ensures |after| == |before|
    ensures forall i :: 0 <= i < |before| ==> Treated(before[i], after[i], now, elapsed, FirstThrottle(before, elapsed, bandwidth), level)
  {
    hide FirstThrottle, LevelIs, Sum, FixedShares, LevelData, OpenCounts;
    forall i | 0 <= i < |before|
      ensures Treated(before[i], after[i], now, elapsed, FirstThrottle(before, elapsed, bandwidth), level)
    {
      assert Settled(before[i], after[i], now, elapsed, level);
    }
  }

  /** The throttle at which all are tried: the 32nds of what the host has for the data of all connected peers. */
  lemma FirstThrottleIs(ps: seq<Peer>, elapsed: nat, bandwidth: nat)
    ensures var all, own := Sum(OnlineData(ps)), bandwidth * elapsed / 1000;
      FirstThrottle(ps, elapsed, bandwidth) == if bandwidth == 0 || all <= own then 32 else own * 32 / all
  {
    hide Sum, OnlineData;
  }

  /** The throttle of the rest: the same for what the fixed peers leave over of the bandwidth and of the data. */
  lemma LevelInNumbers(before: seq<Peer>, after: seq<Peer>, now: uint32, elapsed: nat, bandwidth: nat, level: int)
    requires |before| == |after| && LevelIs(before, after, now, elapsed, bandwidth, level)
    ensures var spent := Sum(FixedShares(before, after, now, elapsed));
      var own, all := bandwidth * elapsed / 1000 - spent, Sum(OnlineData(before)) - spent;
      if bandwidth == 0 || all <= own then level == 32 else all != 0 && level == own * 32 / all
  {
    hide Sum, OnlineData, FixedShares;
  }

  /** What each connected peer is told, in the order of the peers: its own bandwidth or the level, whichever is
      less, and 0 for no limit if it has no bandwidth of its own. */
  lemma {:induction false} ToldAre(before: seq<Peer>, ps: seq<Peer>, now: uint32, level: nat)
    requires AllGrants(before, ps, now, level)
    requires forall i :: 0 <= i < |ps| ==> before[i].incomingEpoch != now
    requires forall i :: 0 <= i < |ps| && Asking(ps[i], now) ==> 0 < ps[i].outgoingBandwidth && level <= ps[i].outgoingBandwidth
    ensures Announced(ps, now, level) == Told(before, level)
  {
    if ps != [] {
      var n := |ps| - 1;
      assert Grants(before[n], ps[n], now, level);
      forall i | 0 <= i < n ensures Grants(before[..n][i], ps[..n][i], now, level) {
        assert Grants(before[i], ps[i], now, level);
      }
      ToldAre(before[..n], ps[..n], now, level);
    }
  }

  lemma OnlyServed(mid: seq<Peer>, after: seq<Peer>, now: uint32, bandwidth: nat, connected: nat, level: nat)
    requires SharesIncoming(mid, after, now, bandwidth, connected, level)
    ensures |mid| == |after| && forall i :: 0 <= i < |after| ==> after[i] == mid[i].(incomingEpoch := after[i].incomingEpoch)
  {
    hide Demands, AskingCounts, Sum;
    forall i | 0 <= i < |after| ensures after[i] == mid[i].(incomingEpoch := after[i].incomingEpoch) {
      assert Grants(mid[i], after[i], now, level);
    }
  }

  /** If nobody was served at this time before. */
  lemma AllTold(mid: seq<Peer>, after: seq<Peer>, t: uint32, now: uint32, bandwidth: nat, connected: nat, level: nat)
    requires t < now && forall i :: 0 <= i < |mid| ==> mid[i].incomingEpoch <= t
    requires if bandwidth == 0 then after == mid && level == 0 else SharesIncoming(mid, after, now, bandwidth, connected, level)
    ensures Announced(after, now, level) == Told(mid, level)
  {
    hide Demands, AskingCounts, Sum, Announced, Told;
    if bandwidth == 0 {
      ToldNothing(mid, now);
    } else {
      ToldAre(mid, after, now, level);
    }
  }

  lemma {:induction false} ToldNothing(ps: seq<Peer>, now: uint32)
    requires forall i :: 0 <= i < |ps| ==> ps[i].incomingEpoch != now
    ensures Announced(ps, now, 0) == Told(ps, 0)
  {
    if ps != [] {
      ToldNothing(ps[..|ps| - 1], now);
    }
  }

  function Told(ps: seq<Peer>, level: nat): seq<(nat, nat)> {
    if ps == [] then []
    else
      var n, p := |ps| - 1, ps[|ps| - 1];
      Told(ps[..n], level) +
        if p.state != Connected && p.state != DisconnectLater then []
        else [(n, if p.outgoingBandwidth < level then p.outgoingBandwidth else level)]
  }

  /** No peer was fixed or served later than at time t. */
  ghost predicate TimelyAt(ps: seq<Peer>, t: uint32) {
    forall i :: 0 <= i < |ps| ==> ps[i].incomingEpoch <= t && ps[i].outgoingEpoch <= t
  }

  /** After the first stage nobody has been served at this time, and nobody was fixed before it. */
  lemma OutgoingTimely(before: seq<Peer>, mid: seq<Peer>, t: uint32, now: uint32, elapsed: nat, bandwidth: nat, level: nat)
    requires TimelyAt(before, t) && t < now && SharesOutgoing(before, mid, now, elapsed, bandwidth, level)
    ensures TimelyAt(mid, now) && AskingCounts(mid, now) == OnlineCounts(mid)
    ensures OpenCounts(before, now) == OnlineCounts(before) && forall i :: 0 <= i < |mid| ==> mid[i].incomingEpoch <= t
  {
    hide FixedAre, LevelIs, Exceeds, OwnLimit, Share, FixedShares, LevelData, Sum;
    forall i | 0 <= i < |mid|
      ensures mid[i].incomingEpoch <= t && mid[i].outgoingEpoch <= now
    {
      assert Settled(before[i], mid[i], now, elapsed, level);
    }
  }

  lemma IncomingTimely(mid: seq<Peer>, after: seq<Peer>, now: uint32, bandwidth: nat, connected: nat, level: nat)
    requires TimelyAt(mid, now) && SharesIncoming(mid, after, now, bandwidth, connected, level)
    ensures TimelyAt(after, now)
  {
    hide Demands, AskingCounts, Sum;
    forall i | 0 <= i < |after| ensures after[i].incomingEpoch <= now && after[i].outgoingEpoch <= now {
      assert Grants(mid[i], after[i], now, level);
    }
  }

  /** In a call that serves everybody no more is left over than rounding takes. */
  lemma NothingWasted(mid: seq<Peer>, after: seq<Peer>, now: uint32, bandwidth: nat, connected: nat, level: nat)
    requires SharesIncoming(mid, after, now, bandwidth, connected, level) && AskingCounts(mid, now) == OnlineCounts(mid)
    requires connected == Sum(OnlineCounts(mid)) && Sum(AskingCounts(after, now)) > 0
    ensures bandwidth - Sum(Demands(mid, now, level)) < Sum(AskingCounts(after, now))
  {
    hide Level, Demands, AskingCounts, OnlineCounts, Sum;
  }

  class Host {
    const peers: array<Peer>
    var connectedPeers: nat
    var bandwidthLimitedPeers: nat
    var incomingBandwidth: nat
    var outgoingBandwidth: nat
    var throttleEpoch: uint32
    var recalculate: bool

    /** The counters count, and no throttle exceeds its limit. */
    ghost predicate Valid()
      reads this, peers
    {
      && connectedPeers == Sum(OnlineCounts(peers[..]))
      && bandwidthLimitedPeers == Sum(LimitedCounts(peers[..]))
      && forall i :: 0 <= i < peers.Length ==> peers[i].packetThrottle <= peers[i].packetThrottleLimit <= SCALE
    }

    /** The marks that the two stages leave at a peer are not later than the last throttling. */
    ghost predicate Timely()
      reads this, peers
    {
      TimelyAt(peers[..], throttleEpoch)
    }

    /** The body of the first loop: one pass over the peers at the common throttle. */
    method FixExceeding(now: uint32, elapsed: nat, throttle: nat, bandwidth0: int, data0: int, remaining0: nat,
                        ghost before: seq<Peer>, ghost total: nat, ghost limited: bool)
      returns (adjusted: bool, bandwidth: int, data: int, remaining: nat)
      requires AllStand(before, peers[..], now, elapsed)
      requires Balance(before, peers[..], now, elapsed, total, limited, bandwidth0, data0, throttle)
      requires Sum(OpenCounts(peers[..], now)) <= remaining0
      modifies peers
      ensures AllStand(before, peers[..], now, elapsed)
      ensures Balance(before, peers[..], now, elapsed, total, limited, bandwidth, data, throttle)
      ensures Sum(OpenCounts(peers[..], now)) <= remaining
      ensures if adjusted then remaining < remaining0
              else bandwidth == bandwidth0 && data == data0 && remaining == remaining0
      ensures NoneExceeds(peers[..], now, elapsed, throttle)
      ensures OnlyExceeding(old(peers[..]), peers[..], now, elapsed, throttle)
    {
      hide AllStand, Balance, OpenCounts, Sum, Fixed;
      adjusted, bandwidth, data, remaining := false, bandwidth0, data0, remaining0;
      for i := 0 to peers.Length
        invariant AllStand(before, peers[..], now, elapsed)
        invariant Balance(before, peers[..], now, elapsed, total, limited, bandwidth, data, throttle)
        invariant Sum(OpenCounts(peers[..], now)) <= remaining
        invariant if adjusted then remaining < remaining0
                  else bandwidth == bandwidth0 && data == data0 && remaining == remaining0
        invariant forall k :: 0 <= k < i && Open(peers[k], now) ==> !Exceeds(peers[k], throttle, elapsed)
        invariant forall k :: 0 <= k < i ==>
          peers[k] == old(peers[k]) || (Open(old(peers[k]), now) && Exceeds(old(peers[k]), throttle, elapsed))
        invariant forall k :: i <= k < peers.Length ==> peers[k] == old(peers[k])
      {
        var peer := peers[i];
        if (peer.state != Connected && peer.state != DisconnectLater) || peer.incomingBandwidth == 0 || peer.outgoingEpoch == now {
          continue;
        }
        var peerBandwidth := Share(peer, elapsed);
        if throttle * peer.outgoingData / SCALE <= peerBandwidth {
          continue;
        }
        FixKeeps(before, peers[..], i, now, elapsed, total, limited, bandwidth, data, throttle);
        OpenDatum(peers[..], i, now);
        FixedIsClosed(peer, now, elapsed);
        peers[i] := Fixed(peer, now, elapsed);
        adjusted := true;
        remaining := remaining - 1;
        bandwidth := bandwidth - peerBandwidth;
        data := data - peerBandwidth;
      }
    }

    /** The data sent to the connected peers. */
    method OnlineTotal() returns (data: nat)
      ensures data == Sum(OnlineData(peers[..]))
    {
      data := 0;
      for i := 0 to peers.Length
        invariant data == Sum(OnlineData(peers[..i]))
      {
        assert OnlineData(peers[..i + 1])[..i] == OnlineData(peers[..i]);
        if peers[i].state != Connected && peers[i].state != DisconnectLater {
          continue;
        }
        data := data + peers[i].outgoingData;
      }
      assert peers[..peers.Length] == peers[..];
    }

    /** The loop that gives the level to the peers that were not fixed. */
    method SetLevel(now: uint32, elapsed: nat, level: nat, ghost before: seq<Peer>)
      requires AllStand(before, peers[..], now, elapsed) && NoneExceeds(peers[..], now, elapsed, level)
      modifies peers
      ensures AllSettled(before, peers[..], now, elapsed, level)
      ensures LevelData(before, peers[..], now) == OpenData(old(peers[..]), now)
      ensures SameOpen(old(peers[..]), peers[..], now)
      ensures FixedShares(before, peers[..], now, elapsed) == FixedShares(before, old(peers[..]), now, elapsed)
    {
      hide Exceeds, Fixed;
      ghost var mid := peers[..];
      for i := 0 to peers.Length
        invariant forall k :: 0 <= k < i ==> Settled(before[k], peers[k], now, elapsed, level)
        invariant forall k :: 0 <= k < i ==> Open(peers[k], now) == Open(mid[k], now)
        invariant forall k :: i <= k < peers.Length ==> peers[k] == mid[k]
      {
        var peer := peers[i];
        assert Stands(before[i], peer, now, elapsed);
        if (peer.state != Connected && peer.state != DisconnectLater) || peer.outgoingEpoch == now {
          continue;
        }
        peers[i] := Limited(peer, level);
      }
      LevelIsOpen(before, mid, now, elapsed);
    }

    /** The first stage: the loop that fixes peers until none exceeds its share, and the level for the rest. */
    method LimitOutgoing(now: uint32, elapsed: nat) returns (level: nat)
      requires Valid()
      modifies peers
      ensures Valid()
      ensures SharesOutgoing(old(peers[..]), peers[..], now, elapsed, outgoingBandwidth, level)
    {
      hide AllStand, AllSettled, Balance, Budget, OpenCounts, OpenData, FixedShares, LevelData, Sum, Throttle, Exceeds, OnlineCounts, LimitedCounts,
        NoneExceeds, OnlyExceeding, FixedAre, LevelIs, FirstThrottle, SameOpen;
      ghost var before, total, limited := peers[..], outgoingBandwidth * elapsed / 1000, outgoingBandwidth != 0;
      var data: int, bandwidth: int, remaining: nat := 0xFFFF_FFFF, 0xFFFF_FFFF, connectedPeers;
      if outgoingBandwidth != 0 {
        bandwidth := outgoingBandwidth * elapsed / 1000;
        data := OnlineTotal();
      }
      StartBudget(before, now, elapsed, total, limited, bandwidth, data);
      ThrottleBalances(before, peers[..], now, elapsed, total, limited, bandwidth, data);
      level := 0;
      var adjust := bandwidthLimitedPeers > 0;
      ghost var first, started := Throttle(bandwidth, data), false;
      FirstIs(before, now, elapsed, outgoingBandwidth, bandwidth, data);
      if !adjust {
        NoneLimited(before, now, elapsed, first);
      }
      while remaining > 0 && adjust
        invariant AllStand(before, peers[..], now, elapsed) && level <= SCALE
        invariant Budget(before, peers[..], now, elapsed, total, limited, bandwidth, data)
        invariant Sum(OpenCounts(peers[..], now)) <= remaining
        invariant data <= bandwidth || data != 0
        invariant !adjust ==> NoneExceeds(peers[..], now, elapsed, Throttle(bandwidth, data))
        invariant first == FirstThrottle(before, elapsed, outgoingBandwidth) && OnlyExceeding(before, peers[..], now, elapsed, first)
        invariant started || !adjust ==> NoneExceeds(peers[..], now, elapsed, first)
        invariant !started ==> Throttle(bandwidth, data) == first
        decreases remaining, adjust
      {
        ThrottleBalances(before, peers[..], now, elapsed, total, limited, bandwidth, data);
        level := Throttle(bandwidth, data);
        ghost var was := peers[..];
        NotAboveFirst(before, was, now, elapsed, outgoingBandwidth, bandwidth, data);
        adjust, bandwidth, data, remaining := FixExceeding(now, elapsed, level, bandwidth, data, remaining, before, total, limited);
        BalanceIsBudget(before, peers[..], now, elapsed, total, limited, bandwidth, data, level);
        ThrottleBalances(before, peers[..], now, elapsed, total, limited, bandwidth, data);
        PassKeeps(before, was, peers[..], now, elapsed, first, level);
        started := true;
      }
      ghost var mid := peers[..];
      if remaining == 0 {
        NoneOpen(before, mid, now, elapsed, first);
      }
      if remaining > 0 {
        ThrottleBalances(before, mid, now, elapsed, total, limited, bandwidth, data);
        level := Throttle(bandwidth, data);
        SetLevel(now, elapsed, level, before);
        LevelMeans(before, mid, peers[..], now, elapsed, outgoingBandwidth, bandwidth, data);
      } else {
        NoneOpen(before, mid, now, elapsed, level);
      }
      Conserved(before, mid, peers[..], now, elapsed, total, limited, bandwidth, data, level);
      SettledCounts(before, peers[..], now, elapsed, level);
      PassesEnd(before, mid, peers[..], now, elapsed, first);
    }

    /** One pass of the second loop. */
    method GrantBelow(now: uint32, level: nat, bandwidth0: int, remaining0: int, ghost before: seq<Peer>, ghost total: nat, ghost spare: nat)
      returns (adjusted: bool, bandwidth: int, remaining: int)
      requires Left(before, peers[..], now, total, spare, bandwidth0, remaining0, level)
      modifies peers
      ensures Left(before, peers[..], now, total, spare, bandwidth, remaining, level)
      ensures if adjusted then remaining < remaining0 else remaining == remaining0 && bandwidth == bandwidth0 && Level(before, peers[..], now, level)
    {
      hide Left, AllGrants;
      adjusted, bandwidth, remaining := false, bandwidth0, remaining0;
      for i := 0 to peers.Length
        invariant Left(before, peers[..], now, total, spare, bandwidth, remaining, level)
        invariant if adjusted then remaining < remaining0
                  else remaining == remaining0 && bandwidth == bandwidth0 && forall k :: 0 <= k < i && Asking(peers[k], now) ==>
                         0 < peers[k].outgoingBandwidth && level <= peers[k].outgoingBandwidth
      {
        var peer := peers[i];
        if (peer.state != Connected && peer.state != DisconnectLater) || peer.incomingEpoch == now {
          continue;
        }
        if peer.outgoingBandwidth > 0 && peer.outgoingBandwidth >= level {
          continue;
        }
        GrantKeeps(before, peers[..], i, now, total, spare, bandwidth, remaining, level);
        peers[i] := peer.(incomingEpoch := now);
        adjusted := true;
        remaining := remaining - 1;
        bandwidth := bandwidth - peer.outgoingBandwidth;
      }
      LeftGrants(before, peers[..], now, total, spare, bandwidth, remaining, level);
    }

    /** The second stage: the level of incoming bandwidth, and what each connected peer is told. */
    method LimitIncoming(now: uint32) returns (level: nat, told: seq<(nat, nat)>)
      requires Valid()
      modifies peers
      ensures Valid() && told == Announced(peers[..], now, level)
      ensures incomingBandwidth == 0 ==> level == 0 && peers[..] == old(peers[..])
      ensures incomingBandwidth != 0 ==> SharesIncoming(old(peers[..]), peers[..], now, incomingBandwidth, connectedPeers, level)
    {
      hide Left, Level, Granted, Demands, AskingCounts, Sum, OnlineCounts, LimitedCounts, AllGrants;
      ghost var before, total := peers[..], incomingBandwidth;
      var remaining: int, bandwidth: int, adjust := connectedPeers, incomingBandwidth, true;
      level := 0;
      if bandwidth != 0 {
        ghost var spare := StartLeft(before, now, total);
        while remaining > 0 && adjust
          invariant Left(before, peers[..], now, total, spare, bandwidth, remaining, level) && remaining >= 0
          invariant !adjust ==> Level(before, peers[..], now, level) && remaining > 0 && level == bandwidth / remaining
          decreases remaining, adjust
        {
          LevelRises(before, peers[..], now, total, spare, bandwidth, remaining, level);
          level := bandwidth / remaining;
          adjust, bandwidth, remaining := GrantBelow(now, level, bandwidth, remaining, before, total, spare);
          LeftGrants(before, peers[..], now, total, spare, bandwidth, remaining, level);
        }
        if remaining == 0 {
          AllGranted(before, peers[..], now, total, spare, bandwidth, remaining, level);
        }
        LeftGrants(before, peers[..], now, total, spare, bandwidth, remaining, level);
        Shared(before, peers[..], now, total, spare, bandwidth, remaining, level);
        GrantedCounts(before, peers[..], now, level);
      }
      told := Announce(now, level);
    }

    /** The commands that tell the connected peers. */
    method Announce(now: uint32, level: nat) returns (told: seq<(nat, nat)>)
      ensures told == Announced(peers[..], now, level)
    {
      told := [];
      for i := 0 to peers.Length
        invariant told == Announced(peers[..i], now, level)
      {
        assert peers[..i + 1][..i] == peers[..i];
        var peer := peers[i];
        if peer.state != Connected && peer.state != DisconnectLater {
          continue;
        }
        told := told + [(i, if peer.incomingEpoch == now then peer.outgoingBandwidth else level)];
      }
      assert peers[..peers.Length] == peers[..];
    }

    /** enet_host_bandwidth_throttle; mid is how the peers stand between the two stages. */
    method BandwidthThrottle(now: uint32) returns (told: seq<(nat, nat)>, ghost mid: seq<Peer>, ghost throttle: nat, ghost level: nat)
      requires Valid()
      modifies peers, this`throttleEpoch, this`recalculate
      ensures Valid()
      ensures var ran := (now - old(throttleEpoch)) % WORD >= 1000;
        && throttleEpoch == (if ran then now else old(throttleEpoch))
        && recalculate == (old(recalculate) && !(ran && connectedPeers > 0))
      ensures var elapsed := (now - old(throttleEpoch)) % WORD;
        if elapsed < 1000 || connectedPeers == 0 then peers[..] == old(peers[..]) && told == []
        else
          && SharesOutgoing(old(peers[..]), mid, now, elapsed, outgoingBandwidth, throttle)
          // every connected peer that takes part starts over, and is limited
          && |mid| == peers.Length
          && (forall i :: 0 <= i < peers.Length ==>
                && Treated(old(peers[i]), mid[i], now, elapsed, FirstThrottle(old(peers[..]), elapsed, outgoingBandwidth), throttle)
                && peers[i] == mid[i].(incomingEpoch := peers[i].incomingEpoch))
          && if !old(recalculate) then peers[..] == mid && told == []
             else
               && told == Announced(peers[..], now, level)
               && if incomingBandwidth == 0 then peers[..] == mid && level == 0
                  else SharesIncoming(mid, peers[..], now, incomingBandwidth, connectedPeers, level)
      // unless the clock has gone round since the last call, everybody takes part, and nothing is wasted
      ensures old(Timely()) && old(throttleEpoch) <= now ==> Timely()
      ensures old(Timely()) && old(throttleEpoch) <= now && now - old(throttleEpoch) >= 1000 && connectedPeers > 0 ==>
        && OpenCounts(old(peers[..]), now) == OnlineCounts(old(peers[..]))
        && (old(recalculate) && incomingBandwidth != 0 && Sum(AskingCounts(peers[..], now)) > 0 ==>
            incomingBandwidth - Sum(Demands(mid, now, level)) < Sum(AskingCounts(peers[..], now)))
        && (old(recalculate) ==> told == Told(mid, level))
    {
      hide Treated, FirstThrottle, Told, SharesOutgoing, SharesIncoming, Announced, OnlineCounts, LimitedCounts, AskingCounts, OpenCounts, Demands, Sum;
      told, mid, throttle, level := [], peers[..], 0, 0;
      var elapsed := (now - throttleEpoch) % WORD;
      if elapsed < INTERVAL {
        return;
      }
      throttleEpoch := now;
      if connectedPeers == 0 {
        return;
      }
      throttle := LimitOutgoing(now, elapsed);
      mid := peers[..];
      AllTreated(old(peers[..]), mid, now, elapsed, outgoingBandwidth, throttle);
      if old(Timely()) && old(throttleEpoch) <= now {
        OutgoingTimely(old(peers[..]), mid, old(throttleEpoch), now, elapsed, outgoingBandwidth, throttle);
      }
      if recalculate {
        recalculate := false;
        level, told := LimitIncoming(now);
        if incomingBandwidth != 0 {
          OnlyServed(mid, peers[..], now, incomingBandwidth, connectedPeers, level);
        }
        if old(Timely()) && old(throttleEpoch) <= now {
          AllTold(mid, peers[..], old(throttleEpoch), now, incomingBandwidth, connectedPeers, level);
        }
        if incomingBandwidth != 0 && old(Timely()) && old(throttleEpoch) <= now {
          IncomingTimely(mid, peers[..], now, incomingBandwidth, connectedPeers, level);
          if Sum(AskingCounts(peers[..], now)) > 0 {
            NothingWasted(mid, peers[..], now, incomingBandwidth, connectedPeers, level);
          }
        }
      }
    }

    constructor (peerCount: nat, incoming: nat, outgoing: nat)
      ensures Valid() && Timely() && peers.Length == peerCount
    {
      peers := new Peer[peerCount](_ => RESET_PEER);
      connectedPeers, bandwidthLimitedPeers, throttleEpoch, recalculate := 0, 0, 0, false;
      incomingBandwidth, outgoingBandwidth := incoming, outgoing;
      new;
      SumZero(OnlineCounts(peers[..]));
      SumZero(LimitedCounts(peers[..]));
    }

    /** enet_host_bandwidth_limit */
    method BandwidthLimit(incoming: nat, outgoing: nat)
      requires Valid()
      modifies this`incomingBandwidth, this`outgoingBandwidth, this`recalculate
      ensures Valid() && incomingBandwidth == incoming && outgoingBandwidth == outgoing && recalculate
    {
      incomingBandwidth, outgoingBandwidth, recalculate := incoming, outgoing, true;
    }

    /** A peer's entry is replaced and the counters are corrected. */
    lemma CountsUpdate(ps: seq<Peer>, i: nat, q: Peer)
      requires i < |ps|
      ensures Sum(OnlineCounts(ps[i := q])) == Sum(OnlineCounts(ps)) - Count(Online(ps[i])) + Count(Online(q))
      ensures Sum(LimitedCounts(ps[i := q])) == Sum(LimitedCounts(ps))
        - Count(Online(ps[i]) && ps[i].incomingBandwidth != 0) + Count(Online(q) && q.incomingBandwidth != 0)
      ensures Online(ps[i]) ==> Sum(OnlineCounts(ps)) > 0
      ensures Online(ps[i]) && ps[i].incomingBandwidth != 0 ==> Sum(LimitedCounts(ps)) > 0
    {
      SumUpdate(OnlineCounts(ps), i, Count(Online(q)));
      SumUpdate(LimitedCounts(ps), i, Count(Online(q) && q.incomingBandwidth != 0));
      assert OnlineCounts(ps[i := q]) == OnlineCounts(ps)[i := Count(Online(q))];
      assert LimitedCounts(ps[i := q]) == LimitedCounts(ps)[i := Count(Online(q) && q.incomingBandwidth != 0)];
      SumLeast(OnlineCounts(ps), i);
      SumLeast(LimitedCounts(ps), i);
    }

    /** enet_protocol_change_state, with enet_peer_on_connect and enet_peer_on_disconnect */
    method ChangeState(i: nat, state: PeerState)
      requires Valid() && i < peers.Length
      modifies peers, this`connectedPeers, this`bandwidthLimitedPeers
      ensures Valid() && peers[..] == old(peers[..])[i := old(peers[i]).(state := state)]
      ensures old(Timely()) ==> Timely()
    {
      hide OnlineCounts, LimitedCounts, Sum;
      var peer := peers[i];
      CountsUpdate(peers[..], i, peer.(state := state));
      if state == Connected || state == DisconnectLater {
        if peer.state != Connected && peer.state != DisconnectLater {
          if peer.incomingBandwidth != 0 {
            bandwidthLimitedPeers := bandwidthLimitedPeers + 1;
          }
          connectedPeers := connectedPeers + 1;
        }
      } else {
        OnDisconnect(peer);
      }
      peers[i] := peer.(state := state);
    }

    /** enet_peer_on_disconnect */
    method OnDisconnect(peer: Peer)
      requires Online(peer) ==> connectedPeers > 0 && (peer.incomingBandwidth != 0 ==> bandwidthLimitedPeers > 0)
      modifies this`connectedPeers, this`bandwidthLimitedPeers
      ensures connectedPeers == old(connectedPeers) - Count(Online(peer))
      ensures bandwidthLimitedPeers == old(bandwidthLimitedPeers) - Count(Online(peer) && peer.incomingBandwidth != 0)
    {
      if peer.state == Connected || peer.state == DisconnectLater {
        if peer.incomingBandwidth != 0 {
          bandwidthLimitedPeers := bandwidthLimitedPeers - 1;
        }
        connectedPeers := connectedPeers - 1;
      }
    }

    /** enet_peer_reset */
    method Reset(i: nat)
      requires Valid() && i < peers.Length
      modifies peers, this`connectedPeers, this`bandwidthLimitedPeers
      ensures Valid() && peers[..] == old(peers[..])[i := RESET_PEER]
      ensures old(Timely()) ==> Timely()
    {
      hide OnlineCounts, LimitedCounts, Sum;
      CountsUpdate(peers[..], i, RESET_PEER);
      OnDisconnect(peers[i]);
      peers[i] := RESET_PEER;
    }

    /** What a peer said of its bandwidth while it was connecting. */
    method Handshake(i: nat, incoming: nat, outgoing: nat)
      requires Valid() && i < peers.Length && !Online(peers[i])
      modifies peers
      ensures Valid() && peers[..] == old(peers[..])[i := old(peers[i]).(incomingBandwidth := incoming, outgoingBandwidth := outgoing)]
      ensures old(Timely()) ==> Timely()
    {
      hide OnlineCounts, LimitedCounts, Sum;
      CountsUpdate(peers[..], i, peers[i].(incomingBandwidth := incoming, outgoingBandwidth := outgoing));
      peers[i] := peers[i].(incomingBandwidth := incoming, outgoingBandwidth := outgoing);
    }

    /** enet_protocol_handle_bandwidth_limit; the result is false where the source returns an error. */
    method HandleBandwidthLimit(i: nat, incoming: nat, outgoing: nat) returns (ok: bool)
      requires Valid() && i < peers.Length
      modifies peers, this`bandwidthLimitedPeers
      ensures Valid() && ok == Online(old(peers[i]))
      ensures old(Timely()) ==> Timely()
      ensures peers[..] == if ok then old(peers[..])[i := old(peers[i]).(incomingBandwidth := incoming, outgoingBandwidth := outgoing)]
                           else old(peers[..])
    {
      hide OnlineCounts, LimitedCounts, Sum;
      var peer := peers[i];
      if peer.state != Connected && peer.state != DisconnectLater {
        return false;
      }
      CountsUpdate(peers[..], i, peer.(incomingBandwidth := incoming, outgoingBandwidth := outgoing));
      if peer.incomingBandwidth != 0 {
        bandwidthLimitedPeers := bandwidthLimitedPeers - 1;
      }
      if incoming != 0 {
        bandwidthLimitedPeers := bandwidthLimitedPeers + 1;
      }
      peers[i] := peer.(incomingBandwidth := incoming, outgoingBandwidth := outgoing);
      ok := true;
    }

    /** enet_peer_throttle: the throttle of a peer moves with the round trip time, within its limit. */
    method PeerThrottle(i: nat, rtt: nat, lastRtt: nat, lastVariance: nat, acceleration: nat, deceleration: nat) returns (r: int)
      requires Valid() && i < peers.Length
      modifies peers
      ensures Valid() && (old(Timely()) ==> Timely())
      ensures r == if lastRtt <= lastVariance then 0 else if rtt <= lastRtt then 1 else if rtt > lastRtt + 2 * lastVariance then -1 else 0
      ensures var t, limit := old(peers[i].packetThrottle), old(peers[i].packetThrottleLimit);
        peers[..] == old(peers[..])[i := old(peers[i]).(packetThrottle :=
          if lastRtt <= lastVariance then limit
          else if r == 1 then Least(t + acceleration, limit)
          else if r == -1 then if t > deceleration then t - deceleration else 0
          else t)]
    {
      hide OnlineCounts, LimitedCounts, Sum;
      var peer := peers[i];
      var t := peer.packetThrottle;
      r := 0;
      if lastRtt <= lastVariance {
        t := peer.packetThrottleLimit;
      } else if rtt <= lastRtt {
        t := t + acceleration;
        if t > peer.packetThrottleLimit {
          t := peer.packetThrottleLimit;
        }
        r := 1;
      } else if rtt > lastRtt + 2 * lastVariance {
        t := if t > deceleration then t - deceleration else 0;
        r := -1;
      }
      CountsUpdate(peers[..], i, peer.(packetThrottle := t));
      peers[i] := peer.(packetThrottle := t);
    }
  }
}
