/** The receiving half of a channel as peer.c and protocol.c keep it: two lists walked and changed in
    place. A list iterator is a position in the list; when entries in front of it are moved away or
    removed, it moves with its entry. Each method is proved equal to the function of IncomingChannel
    that the theorems about runs are about. */
module ChannelReceiver {
  import opened Words
  import opened SequenceNumbers
  import opened IncomingChannel

  // ---- the walk over the live list and the walk over the list as it was

  /** The entries passed over, as they stand at the front of the live list. */
  function Pick(q: seq<Incoming>, stays: seq<nat>): (p: seq<Incoming>)
    requires forall k :: 0 <= k < |stays| ==> stays[k] < |q|
    ensures |p| == |stays| && forall k :: 0 <= k < |stays| ==> p[k] == q[stays[k]]
  {
    seq(|stays|, k requires 0 <= k < |stays| => q[stays[k]])
  }

  /** Position d of the live list is where the original position dropped is now. */
  ghost predicate DroppedAt(stays: seq<nat>, dropped: nat, d: nat) {
    && d <= |stays|
    && (forall k :: 0 <= k < d ==> stays[k] < dropped)
    && (forall k :: d <= k < |stays| ==> dropped <= stays[k])
  }

  /** Position e of the live list, or -1 if it left it, is where the original position queued is now. */
  ghost predicate QueuedAt(stays: seq<nat>, start: nat, queued: int, e: int) {
    if queued >= start then e == |stays| + queued - start
    else if e >= 0 then e < |stays| && stays[e] == queued
    else e == -1 && queued !in stays
  }

  ghost predicate Ascends(stays: seq<nat>) {
    forall j, k :: 0 <= j < k < |stays| ==> stays[j] < stays[k]
  }

  /** The live list and its iterators stand for the state s of the walk over the original list q. */
  ghost predicate Walks(q: seq<Incoming>, s: Scan, queued: int, live: seq<Incoming>, current: nat, start: nat, dropped: nat, e: int) {
    && ScanOk(q, s) && Ascends(s.stays) && s.dropped <= s.start
    && (if s.start > 0 then s.stays != [] && s.stays[|s.stays| - 1] == s.start - 1 else s.stays == [])
    && live == Pick(q, s.stays) + q[s.start..]
    && start == |s.stays| && current == start + (s.current - s.start)
    && DroppedAt(s.stays, s.dropped, dropped)
    && -1 <= queued < |q| && QueuedAt(s.stays, s.start, queued, e)
  }

  lemma WalkStarts(q: seq<Incoming>, u: uint16, queued: int)
    requires -1 <= queued < |q|
    ensures Walks(q, Scan(0, 0, 0, u, [], []), queued, q, 0, 0, 0, queued) && ScanOk(q, Scan(0, 0, 0, u, [], []))
  {
    assert Pick(q, []) + q[0..] == q;
  }

  /** What enet_peer_remove_incoming_commands leaves of a list. */
  function Without(l: seq<Incoming>, d: nat, e: int): seq<Incoming>
    requires d <= |l|
  {
    (if 0 <= e < d then [l[e]] else []) + l[d..]
  }

  lemma {:induction false} KeptIs(q: seq<Incoming>, stays: seq<nat>, dropped: nat, d: nat, queued: int, e: int)
    requires (forall k :: 0 <= k < |stays| ==> stays[k] < |q|) && Ascends(stays) && DroppedAt(stays, dropped, d)
    requires if e >= 0 then e < |stays| && stays[e] == queued else queued !in stays
    ensures Kept(q, stays, dropped, queued) == (if 0 <= e < d then [q[stays[e]]] else []) + Pick(q, stays[d..])
  {
    hide Ascends;
    if stays != [] {
      var rest := stays[1..];
      var d' := if d > 0 then d - 1 else 0;
      var e' := if e > 0 then e - 1 else -1;
      RestOf(stays, dropped, d, queued, e);
      KeptIs(q, rest, dropped, d', queued, e');
      if d == 0 {
        assert Pick(q, stays[d..]) == [q[stays[0]]] + Pick(q, rest[0..]);
      } else {
        assert rest[d'..] == stays[d..];
        assert 0 <= e < d ==> (e == 0 <==> queued == stays[0]);
      }
    }
  }

  lemma RestOf(stays: seq<nat>, dropped: nat, d: nat, queued: int, e: int)
    requires stays != [] && Ascends(stays) && DroppedAt(stays, dropped, d)
    requires if e >= 0 then e < |stays| && stays[e] == queued else queued !in stays
    ensures var rest, e' := stays[1..], if e > 0 then e - 1 else -1;
      && Ascends(rest) && DroppedAt(rest, dropped, if d > 0 then d - 1 else 0)
      && (if e' >= 0 then e' < |rest| && rest[e'] == queued else queued !in rest)
      && (stays[0] == queued <==> e == 0) && (stays[0] >= dropped <==> d == 0)
  {
  }

  lemma KeptBeforeIs(q: seq<Incoming>, stays: seq<nat>, dropped: nat, d: nat, e: nat)
    requires Ascends(stays) && DroppedAt(stays, dropped, d) && e < |stays|
    ensures KeptBefore(stays, dropped, stays[e]) == if e < d then 0 else e - d
    decreases |stays|
  {
    if e > 0 {
      assert stays[1..][e - 1] == stays[e];
      KeptBeforeIs(q, stays[1..], dropped, if d > 0 then d - 1 else 0, e - 1);
    }
  }

  /** Moving the run from start to current away from the live list. */
  lemma RunMoves(q: seq<Incoming>, s: Scan, queued: int, live: seq<Incoming>, current: nat, start: nat, dropped: nat, e: int)
    requires Walks(q, s, queued, live, current, start, dropped, e)
    ensures start <= current <= |live| && live[start..current] == q[s.start..s.current]
    ensures live[..start] + live[current..] == Pick(q, s.stays) + q[s.current..]
    ensures var e' := if e >= current then e - (current - start) else if e >= start then -1 else e;
      QueuedAt(s.stays, s.current, queued, e')
  {
    assert live[start..] == q[s.start..];
    assert live[start..current] == live[start..][..current - start];
    assert live[current..] == live[start..][current - start..];
    assert live[..start] == Pick(q, s.stays);
    assert forall k :: 0 <= k < |s.stays| ==> s.stays[k] < s.start;
  }

  /** The entry at current is complete and joins the run. */
  lemma JoinsRun(q: seq<Incoming>, incoming: uint16, s: Scan, queued: int, live: seq<Incoming>, current: nat, start: nat, dropped: nat, e: int)
    requires Walks(q, s, queued, live, current, start, dropped, e) && s.current < |q|
    requires q[s.current].reliable == incoming && q[s.current].remaining == 0
    ensures var t := ScanTurn(q, incoming, s);
      t.moved == s.moved && t.unreliable == q[s.current].unreliable && Walks(q, t, queued, live, current + 1, start, dropped, e)
  {
    hide QueuedAt, DroppedAt, Ascends;
  }

  lemma CurrentEntry(q: seq<Incoming>, s: Scan, queued: int, live: seq<Incoming>, current: nat, start: nat, dropped: nat, e: int)
    requires Walks(q, s, queued, live, current, start, dropped, e)
    ensures ScanOk(q, s) && start <= current <= |live| && (current < |live| <==> s.current < |q|)
    ensures current < |live| ==> live[current] == q[s.current]
  {
    assert live[start..] == q[s.start..];
  }

  /** Where the three settings of droppedCommand are. */
  lemma DroppedHere(stays: seq<nat>, current: nat)
    requires Ascends(stays) && forall k :: 0 <= k < |stays| ==> stays[k] < current
    ensures DroppedAt(stays + [current], current, |stays|)
    ensures DroppedAt(stays + [current], current + 1, |stays| + 1)
    ensures stays != [] && stays[|stays| - 1] == current - 1 ==> DroppedAt(stays + [current], current - 1, |stays| - 1)
  {
  }

  /** A walk that has passed over the entry at current, with dropped put on position d. */
  lemma PassedOver(q: seq<Incoming>, s: Scan, moved: seq<Incoming>, dropped: nat, d: nat, queued: int, live: seq<Incoming>, e: int)
    requires ScanOk(q, s) && Ascends(s.stays) && s.current < |q| && -1 <= queued < |q|
    requires live == Pick(q, s.stays) + q[s.current..] && QueuedAt(s.stays, s.current, queued, e)
    requires dropped <= s.current + 1 && DroppedAt(s.stays + [s.current], dropped, d)
    ensures Walks(q, PassOver(s.(moved := moved, dropped := dropped)), queued, live, |s.stays| + 1, |s.stays| + 1, d, e)
  {
    var t := PassOver(s.(moved := moved, dropped := dropped));
    assert Pick(q, t.stays) == Pick(q, s.stays) + [q[s.current]];
    assert q[s.current..] == [q[s.current]] + q[s.current + 1..];
    if 0 <= queued == s.current {
      assert t.stays[e] == queued;
    }
  }

  /** The entry at current is passed over, after the run before it was moved away. */
  lemma PassesAfterMove(q: seq<Incoming>, incoming: uint16, s: Scan, queued: int, live: seq<Incoming>, current: nat, start: nat, dropped: nat, e: int)
    requires Walks(q, s, queued, live, current, start, dropped, e) && s.current < |q| && start != current
    requires if q[s.current].reliable == incoming then q[s.current].remaining > 0 else !InWindow(q[s.current].reliable, incoming)
    ensures current <= |live| && start <= current
    ensures var t := ScanTurn(q, incoming, s);
      && t.moved == s.moved + live[start..current] && t.unreliable == s.unreliable
      && Walks(q, t, queued, live[..start] + live[current..], start + 1, start + 1,
               if q[s.current].reliable == incoming then start else start + 1,
               if e >= current then e - (current - start) else if e >= start then -1 else e)
  {
    hide InWindow, Pick;
    RunMoves(q, s, queued, live, current, start, dropped, e);
    DroppedHere(s.stays, s.current);
    var d := if q[s.current].reliable == incoming then s.current else s.current + 1;
    var d' := if q[s.current].reliable == incoming then start else start + 1;
    PassedOver(q, s, s.moved + q[s.start..s.current], d, d', queued, live[..start] + live[current..],
               if e >= current then e - (current - start) else if e >= start then -1 else e);
    hide Walks, QueuedAt, DroppedAt, Ascends;
  }

  lemma PassesInPlace(q: seq<Incoming>, incoming: uint16, s: Scan, queued: int, live: seq<Incoming>, current: nat, dropped: nat, e: int)
    requires Walks(q, s, queued, live, current, current, dropped, e) && s.current < |q|
    requires if q[s.current].reliable == incoming then q[s.current].remaining > 0 else !InWindow(q[s.current].reliable, incoming)
    ensures q[s.current].reliable == incoming && dropped != current ==> current > 0
    ensures var t := ScanTurn(q, incoming, s);
      && t.moved == s.moved && t.unreliable == s.unreliable
      && Walks(q, t, queued, live, current + 1, current + 1,
               if q[s.current].reliable != incoming then current + 1 else if dropped != current then current - 1 else dropped, e)
  {
    hide InWindow, Pick;
    DroppedHere(s.stays, s.current);
    LastStays(s, dropped);
    var d := if q[s.current].reliable != incoming then s.current + 1 else if s.dropped != s.current then s.current - 1 else s.dropped;
    var d' := if q[s.current].reliable != incoming then current + 1 else if dropped != current then current - 1 else dropped;
    PassedOver(q, s, s.moved, d, d', queued, live, e);
    hide Walks, QueuedAt, DroppedAt, Ascends;
  }

  /** droppedCommand is at the current entry in the live list just when it is in the original one. */
  lemma LastStays(s: Scan, dropped: nat)
    requires s.start == s.current && s.dropped <= s.start && DroppedAt(s.stays, s.dropped, dropped)
    requires forall k :: 0 <= k < |s.stays| ==> s.stays[k] < s.start
    requires if s.start > 0 then s.stays != [] && s.stays[|s.stays| - 1] == s.start - 1 else s.stays == []
    ensures dropped == |s.stays| <==> s.dropped == s.current
  {
  }

  /** The end of the walk: the last run is moved, and what is dropped is removed. */
  lemma WalkEnds(c: Channel, s: Scan, queued: int, live: seq<Incoming>, current: nat, start: nat, dropped: nat, e: int)
    requires Walks(c.unreliables, s, queued, live, current, start, dropped, e)
    requires s == ScanAll(c.unreliables, c.incoming, Scan(0, 0, 0, c.unreliable, [], []))
    ensures start <= current <= |live|
    ensures var d := DispatchUnreliable(c, queued);
      var live' := if start != current then live[..start] + live[current..] else live;
      var dropped' := if start != current then start else dropped;
      var e' := if e >= current then e - (current - start) else if e >= start then -1 else e;
      && d.1 == (if start != current then s.moved + live[start..current] else s.moved)
      && dropped' <= |live'| && d.0 == c.(unreliable := s.unreliable, unreliables := Without(live', dropped', e'))
      && -1 <= e' < |live'|
      && (0 <= queued && c.unreliables[queued].remaining > 0 ==> 0 <= e' && PlaceOf(c, queued) == if e' < dropped' then 0 else e' - dropped')
  {
    hide ScanAll, Ascends, QueuedAt, Kept, Without, PlaceOf, Pick;
    var q := c.unreliables;
    var t := WholeWalk(c);
    RunMoves(q, s, queued, live, current, start, dropped, e);
    var dropped' := if start != current then start else dropped;
    var e' := if e >= current then e - (current - start) else if e >= start then -1 else e;
    assert DroppedAt(t.stays, t.dropped, dropped');
    WithoutIs(q, t.stays, t.dropped, dropped', queued, t.current, e');
    if 0 <= queued && q[queued].remaining > 0 {
      PlaceIs(c, queued, dropped', e');
    }
    assert start == current ==> live[..start] + live[current..] == live;
  }

  lemma PickDrop(q: seq<Incoming>, stays: seq<nat>, d: nat)
    requires (forall k :: 0 <= k < |stays| ==> stays[k] < |q|) && d <= |stays|
    ensures Pick(q, stays)[d..] == Pick(q, stays[d..])
  {
  }

  lemma Associative(a: seq<Incoming>, b: seq<Incoming>, c: seq<Incoming>)
    ensures a + b + c == a + (b + c)
  {
  }

  lemma WithoutJoin(a: seq<Incoming>, b: seq<Incoming>, d: nat, e: int)
    requires d <= |a|
    ensures Without(a + b, d, e) == (if 0 <= e < d then [a[e]] else []) + (a[d..] + b)
  {
    assert (a + b)[d..] == a[d..] + b;
  }

  lemma PlaceIs(c: Channel, queued: nat, d: nat, e: int)
    requires queued < |c.unreliables| && c.unreliables[queued].remaining > 0
    requires var t := WholeWalk(c); Ascends(t.stays) && DroppedAt(t.stays, t.dropped, d) && QueuedAt(t.stays, t.current, queued, e)
    ensures e >= 0 && PlaceOf(c, queued) == if e < d then 0 else e - d
  {
    hide ScanAll;
    var q, t := c.unreliables, WholeWalk(c);
    ScanPassesOver(q, c.incoming, Scan(0, 0, 0, c.unreliable, [], []), queued);
    hide WholeWalk;
    if queued < t.current {
      KeptBeforeIs(q, t.stays, t.dropped, d, e);
    } else {
      StaysBelow(c);
      KeptIs(q, t.stays, t.dropped, d, queued, -1);
    }
  }

  lemma StaysBelow(c: Channel)
    ensures var t := WholeWalk(c); forall k :: 0 <= k < |t.stays| ==> t.stays[k] < t.current
  {
  }

  lemma ScanStep(q: seq<Incoming>, incoming: uint16, s: Scan)
    requires ScanOk(q, s)
    ensures s.current == |q| || (q[s.current].reliable != incoming && InWindow(q[s.current].reliable, incoming)) ==>
      ScanAll(q, incoming, s) == s
    ensures s.current < |q| && (q[s.current].reliable == incoming || !InWindow(q[s.current].reliable, incoming)) ==>
      ScanAll(q, incoming, s) == ScanAll(q, incoming, ScanTurn(q, incoming, s))
  {
    hide InWindow, ScanTurn;
  }

  lemma WithoutIs(q: seq<Incoming>, stays: seq<nat>, dropped: nat, d: nat, queued: int, current: nat, e: int)
    requires (forall k :: 0 <= k < |stays| ==> stays[k] < current) && current <= |q| && Ascends(stays) && DroppedAt(stays, dropped, d)
    requires QueuedAt(stays, current, queued, e)
    ensures Kept(q, stays, dropped, queued) + q[current..] == Without(Pick(q, stays) + q[current..], d, e)
  {
    hide *;
    QueuedAmong(stays, current, queued, e);
    DroppedAmong(stays, dropped, d);
    KeptIs(q, stays, dropped, d, queued, if e < |stays| then e else -1);
    PickDrop(q, stays, d);
    WithoutJoin(Pick(q, stays), q[current..], d, e);
    Associative(if 0 <= e < d then [Pick(q, stays)[e]] else [], Pick(q, stays[d..]), q[current..]);
  }

  lemma QueuedAmong(stays: seq<nat>, current: nat, queued: int, e: int)
    requires (forall k :: 0 <= k < |stays| ==> stays[k] < current) && QueuedAt(stays, current, queued, e)
    ensures var e' := if e < |stays| then e else -1; if e' >= 0 then e' < |stays| && stays[e'] == queued else queued !in stays
  {
  }

  lemma DroppedAmong(stays: seq<nat>, dropped: nat, d: nat)
    requires DroppedAt(stays, dropped, d)
    ensures d <= |stays|
  {
  }

  // ---- the receiver

  class Receiver {
    // incomingReliableSequenceNumber and incomingUnreliableSequenceNumber of the channel
    var incoming: uint16
    var unreliable: uint16
    var reliables: seq<Incoming>
    var unreliables: seq<Incoming>
    // the peer's list of dispatched commands
    var dispatched: seq<Incoming>

    ghost function Value(): Channel
      reads this
    {
      Channel(incoming, unreliable, reliables, unreliables)
    }

    constructor ()
      ensures Value() == NEW_CHANNEL && dispatched == []
    {
      incoming, unreliable, reliables, unreliables, dispatched := 0, 0, [], [], [];
    }

    method FindReliable(n: uint16) returns (r: Search)
      ensures r == SearchReliable(reliables, n, incoming, |reliables|)
    {
      var k: nat := |reliables|;
      while k > 0
        invariant k <= |reliables|
        invariant SearchReliable(reliables, n, incoming, |reliables|) == SearchReliable(reliables, n, incoming, k)
      {
        var e := reliables[k - 1];
        if n >= incoming {
          if e.reliable < incoming {
            k := k - 1;
            continue;
          }
        } else if e.reliable >= incoming {
          break;
        }
        if e.reliable <= n {
          if e.reliable < n {
            break;
          }
          return At(k - 1);
        }
        k := k - 1;
      }
      r := Before(k);
    }

    method FindUnreliable(n: uint16, u: uint16) returns (r: Search)
      ensures r == SearchUnreliable(unreliables, n, u, incoming, |unreliables|)
    {
      var k: nat := |unreliables|;
      while k > 0
        invariant k <= |unreliables|
        invariant SearchUnreliable(unreliables, n, u, incoming, |unreliables|) == SearchUnreliable(unreliables, n, u, incoming, k)
      {
        var e := unreliables[k - 1];
        if n >= incoming {
          if e.reliable < incoming {
            k := k - 1;
            continue;
          }
        } else if e.reliable >= incoming {
          break;
        }
        if e.reliable < n {
          break;
        }
        if e.reliable > n {
          k := k - 1;
          continue;
        }
        if e.unreliable <= u {
          if e.unreliable < u {
            break;
          }
          return At(k - 1);
        }
        k := k - 1;
      }
      r := Before(k);
    }

    /** enet_peer_remove_incoming_commands, from the front of the unreliable commands up to position
        end, except the one at position e; where that one stands afterwards. */
    method RemoveUnreliable(end: nat, e: int) returns (at: int)
      requires end <= |unreliables| && -1 <= e < |unreliables|
      modifies this`unreliables
      ensures unreliables == Without(old(unreliables), end, e)
      ensures at == if e < 0 then -1 else if e < end then 0 else e - end
    {
      ghost var l := unreliables;
      ghost var k := 0;
      var i, last := 0, end;
      at := e;
      while i != last
        invariant 0 <= i <= last <= |unreliables| && k <= end && last - i == end - k
        invariant unreliables == (if 0 <= e < k then [l[e]] else []) + l[k..]
        invariant i == if 0 <= e < k then 1 else 0
        invariant at == if e < 0 then -1 else if e < k then 0 else e - k + i
        decreases last - i
      {
        assert unreliables[i..] == l[k..];
        if i == at {
          i := i + 1;
        } else {
          unreliables := unreliables[..i] + unreliables[i + 1..];
          last := last - 1;
          at := if at > i then at - 1 else at;
        }
        k := k + 1;
      }
    }

    /** enet_list_move of the run from start up to current to the end of the dispatched commands; where
        the command at position e stands afterwards. */
    method MoveRun(start: nat, current: nat, e: int) returns (at: int)
      requires start <= current <= |unreliables|
      modifies this`unreliables, this`dispatched
      ensures unreliables == old(unreliables[..start] + unreliables[current..])
      ensures dispatched == old(dispatched + unreliables[start..current])
      ensures at == if e >= current then e - (current - start) else if e >= start then -1 else e
    {
      dispatched := dispatched + unreliables[start..current];
      unreliables := unreliables[..start] + unreliables[current..];
      at := if e >= current then e - (current - start) else if e >= start then -1 else e;
    }

    /** enet_peer_dispatch_incoming_unreliable_commands; the command at position queued is not removed,
        and the result is where it stands afterwards, if it is still in the list. */
    method DispatchUnreliableCommands(queued: int) returns (at: int)
      requires -1 <= queued < |unreliables|
      modifies this`unreliable, this`unreliables, this`dispatched
      ensures Value() == DispatchUnreliable(old(Value()), queued).0
      ensures dispatched == old(dispatched) + DispatchUnreliable(old(Value()), queued).1
      ensures 0 <= queued && old(unreliables)[queued].remaining > 0 ==> at == PlaceOf(old(Value()), queued)
    {
      hide Walks, ScanTurn, InWindow, ScanAll, ScanOk, DispatchUnreliable, PlaceOf, WholeWalk, Without;
      ghost var q, was := unreliables, Value();
      ghost var s := Scan(0, 0, 0, unreliable, [], []);
      var current: nat, start: nat, dropped: nat := 0, 0, 0;
      at := queued;
      WalkStarts(q, unreliable, queued);
      while current < |unreliables|
        invariant Walks(q, s, queued, unreliables, current, start, dropped, at)
        invariant ScanOk(q, s) && ScanAll(q, incoming, Scan(0, 0, 0, was.unreliable, [], [])) == ScanAll(q, incoming, s)
        invariant unreliable == s.unreliable && dispatched == old(dispatched) + s.moved
        decreases |q| - s.current
      {
        CurrentEntry(q, s, queued, unreliables, current, start, dropped, at);
        ScanStep(q, incoming, s);
        ghost var next := if s.current < |q| && (q[s.current].reliable == incoming || !InWindow(q[s.current].reliable, incoming))
          then ScanTurn(q, incoming, s) else s;
        var e := unreliables[current];
        if e.reliable == incoming {
          if e.remaining == 0 {
            unreliable := e.unreliable;
            JoinsRun(q, incoming, s, queued, unreliables, current, start, dropped, at);
            current := current + 1;
            s := next;
            continue;
          }
          if start != current {
            PassesAfterMove(q, incoming, s, queued, unreliables, current, start, dropped, at);
            Associative(old(dispatched), s.moved, unreliables[start..current]);
            at := MoveRun(start, current, at);
            current := start;
            dropped := current;
          } else {
            PassesInPlace(q, incoming, s, queued, unreliables, current, dropped, at);
            if dropped != current {
              dropped := current - 1;
            }
          }
        } else {
          if InWindow(e.reliable, incoming) {
            break;
          }
          if start != current {
            PassesAfterMove(q, incoming, s, queued, unreliables, current, start, dropped, at);
            Associative(old(dispatched), s.moved, unreliables[start..current]);
            at := MoveRun(start, current, at);
            current := start;
          } else {
            PassesInPlace(q, incoming, s, queued, unreliables, current, dropped, at);
          }
          dropped := current + 1;
        }
        current := current + 1;
        start := current;
        s := next;
      }
      CurrentEntry(q, s, queued, unreliables, current, start, dropped, at);
      ScanStep(q, incoming, s);
      at := EndWalk(current, start, dropped, at, was, s, queued, old(dispatched));
    }

    /** The part after the loop: the last run is moved, and what was dropped is removed. */
    method EndWalk(current: nat, start: nat, dropped: nat, e: int, ghost was: Channel, ghost s: Scan, ghost queued: int,
                   ghost before: seq<Incoming>)
      returns (at: int)
      requires Walks(was.unreliables, s, queued, unreliables, current, start, dropped, e)
      requires s == ScanAll(was.unreliables, was.incoming, Scan(0, 0, 0, was.unreliable, [], []))
      requires incoming == was.incoming && reliables == was.reliables && unreliable == s.unreliable && dispatched == before + s.moved
      modifies this`unreliables, this`dispatched
      ensures Value() == DispatchUnreliable(was, queued).0
      ensures dispatched == before + DispatchUnreliable(was, queued).1
      ensures 0 <= queued < |was.unreliables| && was.unreliables[queued].remaining > 0 ==> at == PlaceOf(was, queued)
    {
      hide Walks, ScanAll, DispatchUnreliable, PlaceOf, Without, WholeWalk;
      WalkEnds(was, s, queued, unreliables, current, start, dropped, e);
      var end: nat := dropped;
      at := e;
      if start != current {
        Associative(before, s.moved, unreliables[start..current]);
        at := MoveRun(start, current, at);
        end := start;
      }
      at := RemoveUnreliable(end, at);
    }

    /** enet_peer_dispatch_incoming_reliable_commands; the number of commands that leave the front of the list. */
    method DispatchReliableCommands() returns (k: nat)
      modifies this
      ensures k == ReadyCount(old(reliables), old(incoming)) <= |old(reliables)|
      ensures Value() == DispatchReliable(old(Value())).0
      ensures dispatched == old(dispatched) + DispatchReliable(old(Value())).1
    {
      hide DispatchUnreliable, LastNumber;
      ghost var q, n := reliables, incoming;
      k := 0;
      while k < |reliables|
        invariant k <= |q| && reliables == q && unreliables == old(unreliables) && unreliable == old(unreliable)
        invariant dispatched == old(dispatched)
        invariant k + ReadyCount(q[k..], incoming) == ReadyCount(q, n) && ReadyNumber(q[k..], incoming) == ReadyNumber(q, n)
      {
        var e := reliables[k];
        if e.remaining > 0 || e.reliable != (incoming + 1) % SPACE {
          break;
        }
        assert q[k..][1..] == q[k + 1..];
        NextIncoming(e);
        incoming := e.reliable;
        if e.count > 0 {
          incoming := (incoming + e.count - 1) % SPACE;
        }
        k := k + 1;
      }
      if k == 0 {
        return;
      }
      unreliable := 0;
      dispatched := dispatched + reliables[..k];
      reliables := reliables[k..];
      ghost var r := DispatchUnreliable(Value(), -1);
      Associative(old(dispatched), q[..k], r.1);
      if unreliables != [] {
        var at := DispatchUnreliableCommands(-1);
      } else {
        NothingToWalk(Value());
      }
    }

    /** enet_protocol_handle_send_reliable with enet_peer_queue_incoming_command */
    method HandleReliable(c: Command, room: bool) returns (ok: bool)
      modifies this
      ensures var r := ReceiveReliable(old(Value()), c, room);
        ok == r.ok && Value() == r.channel && dispatched == old(dispatched) + r.out
    {
      hide DispatchReliable, InWindow, SearchReliable;
      if !InWindow(c.reliable, incoming) || c.reliable == incoming {
        return true;
      }
      var place := FindReliable(c.reliable);
      if place.At? {
        return true;
      }
      if !room {
        return false;
      }
      reliables := Insert(reliables, place.index, NewIncoming(c, c.reliable, 0));
      var k := DispatchReliableCommands();
      return true;
    }

    /** The end of enet_protocol_handle_send_fragment: the fragment goes into the command at position i. */
    method AddToReliable(i: nat, c: Command)
      requires BitsOk(reliables) && i < |reliables| && SamePacket(reliables[i], c)
      requires c.fragment < c.count && c.offset + |c.data| <= c.total
      modifies this
      ensures var r := TakeFragment(old(Value()), i, c, []);
        r.ok && Value() == r.channel && dispatched == old(dispatched) + r.out
    {
      hide DispatchReliable;
      var e := reliables[i];
      if !e.got[c.fragment] {
        var f := AddFragment(e, c);
        reliables := reliables[i := f];
        if f.remaining == 0 {
          var k := DispatchReliableCommands();
        }
      }
    }

    /** enet_protocol_handle_send_fragment */
    method HandleFragment(c: Command, room: bool, maximumPacketSize: nat) returns (ok: bool)
      requires BitsOk(reliables) && c.kind == SendFragment
      modifies this
      ensures var r := ReceiveFragment(old(Value()), c, room, maximumPacketSize);
        ok == r.ok && Value() == r.channel && dispatched == old(dispatched) + r.out
    {
      hide DispatchReliable, InWindow, SearchReliable, TakeFragment, QueueFragment, ReadyCount;
      if !InWindow(c.start, incoming) {
        return true;
      }
      if !FragmentFits(c, maximumPacketSize) {
        return false;
      }
      var place := FindReliable(c.start);
      if place.At? {
        if !SamePacket(reliables[place.index], c) {
          return false;
        }
        AddToReliable(place.index, c);
        return true;
      }
      if c.start == incoming || !room {
        return false;
      }
      QueueFragmentSteps(Value(), place.index, c);
      reliables := Insert(reliables, place.index, NewIncoming(c, c.start, 0));
      var k := DispatchReliableCommands();
      AddToReliable(place.index - k, c);
      return true;
    }

    /** enet_protocol_handle_send_unreliable with enet_peer_queue_incoming_command */
    method HandleUnreliable(c: Command, room: bool) returns (ok: bool)
      modifies this
      ensures var r := ReceiveUnreliable(old(Value()), c, room);
        ok == r.ok && Value() == r.channel && dispatched == old(dispatched) + r.out
    {
      hide DispatchUnreliable, InWindow, SearchUnreliable, PlaceOf;
      if !InWindow(c.reliable, incoming) || (c.reliable == incoming && c.start <= unreliable) {
        return true;
      }
      var place := FindUnreliable(c.reliable, c.start);
      if place.At? {
        return true;
      }
      if !room {
        return false;
      }
      unreliables := Insert(unreliables, place.index, NewIncoming(c, c.reliable, c.start));
      var at := DispatchUnreliableCommands(place.index);
      return true;
    }

    method AddToUnreliable(i: nat, c: Command)
      requires i < |unreliables| && SamePacket(unreliables[i], c) && |unreliables[i].got| == c.count
      requires c.fragment < c.count && c.offset + |c.data| <= c.total
      modifies this
      ensures var r := TakeUnreliableFragment(old(Value()), i, c, []);
        r.ok && Value() == r.channel && dispatched == old(dispatched) + r.out
    {
      hide DispatchUnreliable, PlaceOf;
      var e := unreliables[i];
      if !e.got[c.fragment] {
        var f := AddFragment(e, c);
        unreliables := unreliables[i := f];
        if f.remaining == 0 {
          var at := DispatchUnreliableCommands(-1);
        }
      }
    }

    /** enet_protocol_handle_send_unreliable_fragment */
    method HandleUnreliableFragment(c: Command, room: bool, maximumPacketSize: nat) returns (ok: bool)
      requires BitsOk(unreliables) && c.kind == SendUnreliableFragment
      modifies this
      ensures var r := ReceiveUnreliableFragment(old(Value()), c, room, maximumPacketSize);
        ok == r.ok && Value() == r.channel && dispatched == old(dispatched) + r.out
    {
      hide DispatchUnreliable, InWindow, SearchUnreliable, TakeUnreliableFragment, QueueUnreliableFragment, PlaceOf;
      if !InWindow(c.reliable, incoming) || (c.reliable == incoming && c.start <= unreliable) {
        return true;
      }
      if !FragmentFits(c, maximumPacketSize) {
        return false;
      }
      var place := FindUnreliable(c.reliable, c.start);
      if place.At? {
        if !SamePacket(unreliables[place.index], c) {
          return false;
        }
        AddToUnreliable(place.index, c);
        return true;
      }
      if !room {
        return false;
      }
      QueueUnreliableSteps(Value(), place.index, c);
      unreliables := Insert(unreliables, place.index, NewIncoming(c, c.reliable, c.start));
      var at := DispatchUnreliableCommands(place.index);
      AddToUnreliable(at, c);
      return true;
    }

    /** One command of a datagram; whether it was accepted, and whether it is acknowledged. */
    method Handle(c: Command, room: bool, maximumPacketSize: nat) returns (ok: bool, acknowledged: bool)
      requires BitsOk(reliables) && BitsOk(unreliables)
      modifies this
      ensures var r := Receive(old(Value()), c, room, maximumPacketSize);
        && ok == r.ok && acknowledged == Acknowledges(r, c)
        && Value() == r.channel && dispatched == old(dispatched) + r.out
    {
      hide ReceiveReliable, ReceiveFragment, ReceiveUnreliable, ReceiveUnreliableFragment, Acknowledged, InWindow;
      if |c.data| > maximumPacketSize {
        return false, false;
      }
      match c.kind {
        case SendReliable => ok := HandleReliable(c, room);
        case SendFragment => ok := HandleFragment(c, room, maximumPacketSize);
        case SendUnreliable => ok := HandleUnreliable(c, room);
        case SendUnreliableFragment => ok := HandleUnreliableFragment(c, room, maximumPacketSize);
      }
      acknowledged := ok && (c.kind == SendReliable || c.kind == SendFragment) && Acknowledged(c.reliable, incoming);
    }
  }

  lemma NextIncoming(e: Incoming)
    ensures LastNumber(e) == if e.count > 0 then (e.reliable + e.count - 1) % SPACE else e.reliable
  {
  }

  lemma NothingToWalk(c: Channel)
    requires c.unreliables == []
    ensures DispatchUnreliable(c, -1) == (c, [])
  {
    assert Kept(c.unreliables, [], 0, -1) + c.unreliables[0..] == c.unreliables;
  }
}
