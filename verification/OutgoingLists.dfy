/** The sender's two lists of commands, and what they say about a channel: which of its numbers are
    sent and unacknowledged, and which wait to be sent for the first time. */
module OutgoingLists {
  import opened Words
  import opened FiniteSets
  import opened SequenceNumbers
  import opened DeliveryModel
  import opened ReliableWindows

  /** ENetOutgoingCommand. number is the unbounded reliable number, of which the code has 16 bits;
      size is that of the command without its data; group is the number of an unsequenced command. */
  datatype Outgoing = Outgoing(channel: nat, reliable: bool, number: nat, unreliable: nat, size: nat, packet: bool,
                               offset: nat, length: nat, attempts: nat, sentTime: uint32, timeout: uint32, limit: uint32,
                               group: uint16)

  predicate OnChannel(x: Outgoing, c: nat) { x.reliable && x.channel == c }

  function Uses(x: Outgoing, c: nat): multiset<nat> {
    if OnChannel(x, c) && x.attempts > 0 then multiset{x.number} else multiset{}
  }

  function Waits(x: Outgoing, c: nat): seq<nat> {
    if OnChannel(x, c) && x.attempts == 0 then [x.number] else []
  }

  /** The numbers of the channel's commands that were sent and not yet acknowledged. */
  function Using(q: seq<Outgoing>, c: nat): multiset<nat> {
    if q == [] then multiset{} else Using(q[..|q| - 1], c) + Uses(q[|q| - 1], c)
  }

  /** The numbers of the channel's commands that were never sent, in the order of the list. */
  function Unsent(q: seq<Outgoing>, c: nat): seq<nat> {
    if q == [] then [] else Unsent(q[..|q| - 1], c) + Waits(q[|q| - 1], c)
  }

  /** reliableDataInTransit */
  function Total(q: seq<Outgoing>): nat {
    if q == [] then 0 else Total(q[..|q| - 1]) + q[|q| - 1].length
  }

  lemma LastOf(q: seq<Outgoing>, c: nat)
    requires q != []
    ensures var r, x := q[..|q| - 1], q[|q| - 1];
      Using(q, c) == Using(r, c) + Uses(x, c) && Unsent(q, c) == Unsent(r, c) + Waits(x, c) && Total(q) == Total(r) + x.length
  {
  }

  lemma NoneIn(c: nat)
    ensures Using([], c) == multiset{} && Unsent([], c) == [] && Total([]) == 0
  {
  }

  lemma {:induction false} Concat(a: seq<Outgoing>, b: seq<Outgoing>, c: nat)
    ensures Using(a + b, c) == Using(a, c) + Using(b, c)
    ensures Unsent(a + b, c) == Unsent(a, c) + Unsent(b, c)
    ensures Total(a + b) == Total(a) + Total(b)
    decreases |b|
  {
    hide Uses, Waits, Using, Unsent, Total;
    if b == [] {
      NoneIn(c);
      assert a + b == a;
    } else {
      Concat(a, b[..|b| - 1], c);
      assert (a + b)[..|a + b| - 1] == a + b[..|b| - 1];
      LastOf(a + b, c);
      LastOf(b, c);
    }
  }

  function RemoveAt(q: seq<Outgoing>, i: nat): seq<Outgoing>
    requires i < |q|
  {
    q[..i] + q[i + 1..]
  }

  /** What a channel loses when a command leaves the list. */
  lemma Remove(q: seq<Outgoing>, i: nat, c: nat)
    requires i < |q|
    ensures Using(q, c) == Using(RemoveAt(q, i), c) + Uses(q[i], c)
    ensures Unsent(q, c) == Unsent(q[..i], c) + Waits(q[i], c) + Unsent(q[i + 1..], c)
    ensures Unsent(RemoveAt(q, i), c) == Unsent(q[..i], c) + Unsent(q[i + 1..], c)
    ensures Total(q) == Total(RemoveAt(q, i)) + q[i].length
  {
    hide Uses, Waits, Using, Unsent, Total;
    assert q == q[..i] + ([q[i]] + q[i + 1..]);
    Concat(q[..i], [q[i]] + q[i + 1..], c);
    Concat([q[i]], q[i + 1..], c);
    Concat(q[..i], q[i + 1..], c);
    One(q[i], c);
  }

  lemma One(x: Outgoing, c: nat)
    ensures Using([x], c) == Uses(x, c) && Unsent([x], c) == Waits(x, c)
    ensures Total([x]) == x.length
  {
    assert [x][..0] == [];
  }

  lemma {:induction false} NoneOn(q: seq<Outgoing>, c: nat)
    requires forall k :: 0 <= k < |q| ==> !OnChannel(q[k], c)
    ensures Using(q, c) == multiset{} && Unsent(q, c) == []
  {
    if q != [] {
      NoneOn(q[..|q| - 1], c);
    }
  }

  /** A number in use is that of some command in the list, and of a command in use. */
  lemma {:induction false} UsingHas(q: seq<Outgoing>, c: nat, n: nat)
    requires n in Using(q, c)
    ensures exists k :: 0 <= k < |q| && n in Uses(q[k], c)
  {
    hide Uses;
    var m := |q| - 1;
    if n !in Uses(q[m], c) {
      UsingHas(q[..m], c, n);
      var k :| 0 <= k < m && n in Uses(q[..m][k], c);
      assert q[k] == q[..m][k];
    }
  }

  /** Commands sent before stand in front of commands never sent. */
  ghost predicate SentFirst(q: seq<Outgoing>) {
    forall i, j :: 0 <= i < j < |q| && q[i].reliable && q[j].reliable && q[i].attempts == 0 ==> q[j].attempts == 0
  }

  lemma SentFirstRemoved(q: seq<Outgoing>, i: nat)
    requires SentFirst(q) && i < |q|
    ensures SentFirst(RemoveAt(q, i))
  {
    var p := RemoveAt(q, i);
    forall a, b | 0 <= a < b < |p| && p[a].reliable && p[b].reliable && p[a].attempts == 0 ensures p[b].attempts == 0 {
      assert p[a] == q[if a < i then a else a + 1] && p[b] == q[if b < i then b else b + 1];
    }
  }

  // ---- one channel

  /** The commands of a channel that were sent and not acknowledged, as a set. */
  ghost function Elements(u: multiset<nat>): set<nat> { set j | j in u }

  /** The consecutive numbers from..to. */
  function Numbers(from: nat, to: nat): (s: seq<nat>)
    requires from <= to + 1
    ensures |s| == to + 1 - from && forall k :: 0 <= k < |s| ==> s[k] == from + k
  {
    seq(to + 1 - from, k => from + k)
  }

  /** u: in use; unsent: waiting in the list; last: the last number sent for the first time; queued: the
      last number given out. */
  ghost predicate ChannelOk(ws: Windows, u: multiset<nat>, unsent: seq<nat>, last: nat, queued: nat) {
    && last <= queued && unsent == Numbers(last + 1, queued)
    && (forall j :: j in u ==> u[j] == 1 && 1 <= j <= last && Win(last) < Win(j) + FREE_WINDOWS - 1)
    && Counts(ws, Elements(u))
  }

  lemma StartsOk()
    ensures ChannelOk(NO_WINDOWS, multiset{}, [], 0, 0)
  {
    NothingCounted();
    assert Elements(multiset{}) == {};
  }

  /** Fewer commands of a window are in use than a 16-bit counter can count. */
  lemma FewInFlight(u: set<nat>, last: nat, n: nat)
    requires forall j :: j in u ==> j <= last && Win(last) < Win(j) + FREE_WINDOWS - 1
    requires n == last + 1
    ensures |InFlight(u, Num(n) / WINDOW_SIZE)| <= WINDOW_SIZE
  {
    var v := Num(n) / WINDOW_SIZE;
    var f := InFlight(u, v);
    if f != {} {
      var i :| i in f;
      var w := Win(i);
      NumWin(i);
      forall j | j in f ensures j in Interval(w * WINDOW_SIZE, WINDOW_SIZE) {
        NumWin(j);
        SameWindow(i, j, last);
      }
      SubsetSize(f, Interval(w * WINDOW_SIZE, WINDOW_SIZE));
    }
  }

  lemma SameWindow(i: nat, j: nat, last: nat)
    requires i <= last && j <= last && Win(last) < Win(i) + FREE_WINDOWS && Win(last) < Win(j) + FREE_WINDOWS
    requires Win(i) % WINDOWS == Win(j) % WINDOWS
    ensures Win(i) == Win(j)
  {
  }

  lemma ElementsGrow(u: multiset<nat>, n: nat)
    ensures Elements(u + multiset{n}) == Elements(u) + {n}
  {
  }

  lemma ElementsShrink(u: multiset<nat>, n: nat)
    requires u[n] == 1
    ensures Elements(u - multiset{n}) == Elements(u) - {n}
  {
  }

  /** The next number is sent for the first time. */
  lemma FirstSendOk(ws: Windows, u: multiset<nat>, unsent: seq<nat>, last: nat, queued: nat)
    requires ChannelOk(ws, u, unsent, last, queued) && unsent != []
    requires forall j :: j in u ==> Win(last + 1) < Win(j) + FREE_WINDOWS - 1
    ensures unsent[0] == last + 1 && |ws.counts| == WINDOWS && ws.counts[Num(last + 1) / WINDOW_SIZE] < SPACE - 1
    ensures ChannelOk(Counted(ws, Num(last + 1)), u + multiset{last + 1}, unsent[1..], last + 1, queued)
  {
    hide Counts, Counted, InFlight, Win, Num;
    var n := last + 1;
    FewInFlight(Elements(u), last, n);
    CountsMean(ws, Elements(u), Num(n));
    ElementsGrow(u, n);
    FirstSendCounts(ws, Elements(u), n);
  }

  lemma CountsMean(ws: Windows, unacked: set<nat>, n: uint16)
    requires Counts(ws, unacked)
    ensures |ws.counts| == WINDOWS && ws.counts[n / WINDOW_SIZE] == |InFlight(unacked, n / WINDOW_SIZE)|
  {
  }

  /** A number is acknowledged. */
  lemma AcknowledgedOk(ws: Windows, u: multiset<nat>, unsent: seq<nat>, last: nat, queued: nat, n: nat)
    requires ChannelOk(ws, u, unsent, last, queued) && n in u
    ensures |ws.counts| == WINDOWS && ChannelOk(Discounted(ws, Num(n)), u - multiset{n}, unsent, last, queued)
  {
    hide Counts, Discounted, InFlight, Win, Num;
    CountsMean(ws, Elements(u), Num(n));
    ElementsShrink(u, n);
    AcknowledgeCounts(ws, Elements(u), n);
  }

  /** The test that the sender makes allows a first sending only within seven windows of everything in use. */
  lemma NotWrapped(ws: Windows, u: multiset<nat>, unsent: seq<nat>, last: nat, queued: nat)
    requires ChannelOk(ws, u, unsent, last, queued) && !MustWait(ws, Num(last + 1))
    ensures forall j :: j in u ==> Win(last + 1) < Win(j) + FREE_WINDOWS - 1
    ensures !WindowWraps(Elements(u), Num(last + 1))
  {
    hide Counts, MustWait, InFlight, Num;
    MustWaitIs(ws, Elements(u), Num(last + 1));
    var n := last + 1;
    if n % WINDOW_SIZE == 0 {
      WindowStarts(n);
      forall j | j in u ensures Win(n) < Win(j) + FREE_WINDOWS - 1 {
        if Win(n) == Win(j) + FREE_WINDOWS - 1 {
          OldestWindow(Elements(u), n, j);
          assert false;
        }
      }
    } else {
      assert Win(n) == Win(last);
    }
  }

  // ---- a run of first sendings

  /** The numbers first..last are sent for the first time one after another, each allowed by the window
      test: the steps FirstSend of the channel's state machine. */
  ghost predicate FirstSends(unacked: set<nat>, sent: nat, last: nat)
    decreases last
  {
    sent == last
    || (sent < last && FirstSends(unacked, sent, last - 1)
        && !WindowWraps(unacked + Interval(sent + 1, last - 1 - sent), Num(last)))
  }
}
