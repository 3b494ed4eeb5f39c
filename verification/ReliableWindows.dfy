/** How the sender keeps count of a channel's unacknowledged commands: sixteen counters and a bit for
    each, against the set of commands that they count. */
module ReliableWindows {
  import opened Words
  import opened FiniteSets
  import opened SequenceNumbers
  import opened DeliveryModel

  /** reliableWindows and usedReliableWindows of a channel; a mask is the set of its bits. */
  datatype Windows = Windows(counts: seq<uint16>, used: set<nat>)

  /** (1 << n) - 1 */
  function Ones(n: nat): set<nat> { Interval(0, n) }

  function ShiftLeft(mask: set<nat>, n: nat): set<nat> { set b | b in mask :: b + n }

  function ShiftRight(mask: set<nat>, n: nat): set<nat> { set b | b in mask && b >= n :: b - n }

  /** The mask of the ten windows from w on, as the source builds it. */
  function Span(w: nat): set<nat>
    requires w < WINDOWS
  {
    ShiftLeft(Ones(FREE_WINDOWS + 2), w) + ShiftRight(Ones(FREE_WINDOWS + 2), WINDOWS - w)
  }

  /** The test before a command is sent for the first time. */
  predicate MustWait(ws: Windows, n: uint16)
    requires |ws.counts| == WINDOWS
  {
    var w := n / WINDOW_SIZE;
    && n % WINDOW_SIZE == 0
    && (ws.counts[(w + WINDOWS - 1) % WINDOWS] >= WINDOW_SIZE || ws.used * Span(w) != {})
  }

  function Counted(ws: Windows, n: uint16): Windows
    requires |ws.counts| == WINDOWS && ws.counts[n / WINDOW_SIZE] < SPACE - 1
  {
    var w := n / WINDOW_SIZE;
    Windows(ws.counts[w := ws.counts[w] + 1], ws.used + {w})
  }

  function Discounted(ws: Windows, n: uint16): Windows
    requires |ws.counts| == WINDOWS
  {
    var w := n / WINDOW_SIZE;
    if ws.counts[w] > 0 then
      Windows(ws.counts[w := ws.counts[w] - 1], if ws.counts[w] == 1 then ws.used - {w} else ws.used)
    else ws
  }

  /** Each counter counts the commands of its window, and its bit says whether there are any. */
  ghost predicate Counts(ws: Windows, unacked: set<nat>) {
    && |ws.counts| == WINDOWS
    && (forall v :: v in ws.used ==> v < WINDOWS)
    && forall v :: 0 <= v < WINDOWS ==> ws.counts[v] == |InFlight(unacked, v)| && (v in ws.used <==> ws.counts[v] > 0)
  }

  const NO_WINDOWS := Windows([0, 0, 0, 0, 0, 0, 0, 0, 0, 0, 0, 0, 0, 0, 0, 0], {})

  lemma NothingCounted()
    ensures Counts(NO_WINDOWS, {})
  {
    forall v: nat | v < WINDOWS ensures InFlight({}, v) == {} {
    }
  }

  /** The mask is that of the ten windows from w on, modulo the number of windows. */
  lemma SpanIs(w: nat, v: nat)
    requires w < WINDOWS && v < WINDOWS
    ensures v in Span(w) <==> (v + WINDOWS - w) % WINDOWS < FREE_WINDOWS + 2
  {
    if v >= w {
      assert v - w in Ones(FREE_WINDOWS + 2) <==> v - w < FREE_WINDOWS + 2;
    } else {
      assert v + WINDOWS - w in Ones(FREE_WINDOWS + 2) <==> v + WINDOWS - w < FREE_WINDOWS + 2;
    }
  }

  lemma CountsMean(ws: Windows, unacked: set<nat>)
    requires Counts(ws, unacked)
    ensures |ws.counts| == WINDOWS && (forall v :: v in ws.used ==> v < WINDOWS)
    ensures forall v :: 0 <= v < WINDOWS ==> ws.counts[v] == |InFlight(unacked, v)| && (v in ws.used <==> InFlight(unacked, v) != {})
  {
    hide InFlight;
  }

  /** The code's test on counters and bits is the test on the commands themselves. */
  lemma MustWaitIs(ws: Windows, unacked: set<nat>, n: uint16)
    requires Counts(ws, unacked)
    ensures MustWait(ws, n) == WindowWraps(unacked, n)
  {
    hide Span, InFlight, Counts;
    var w := n / WINDOW_SIZE;
    CountsMean(ws, unacked);
    forall v: nat | v < WINDOWS ensures v in Span(w) <==> (v + WINDOWS - w) % WINDOWS < FREE_WINDOWS + 2 {
      SpanIs(w, v);
    }
    if v: nat :| v < WINDOWS && (v + WINDOWS - w) % WINDOWS < FREE_WINDOWS + 2 && InFlight(unacked, v) != {} {
      assert v in ws.used * Span(w);
    }
    if ws.used * Span(w) != {} {
      var v :| v in ws.used * Span(w);
      assert InFlight(unacked, v) != {};
    }
  }

  // ---- counters

  lemma InFlightGrows(unacked: set<nat>, n: nat, v: nat)
    requires n !in unacked
    ensures InFlight(unacked + {n}, v) == InFlight(unacked, v) + if Num(n) / WINDOW_SIZE == v then {n} else {}
    ensures |InFlight(unacked + {n}, v)| == |InFlight(unacked, v)| + if Num(n) / WINDOW_SIZE == v then 1 else 0
  {
    hide Num;
    assert InFlight(unacked + {n}, v) == InFlight(unacked, v) + if Num(n) / WINDOW_SIZE == v then {n} else {};
  }

  lemma InFlightShrinks(unacked: set<nat>, n: nat, v: nat)
    requires n in unacked
    ensures |InFlight(unacked - {n}, v)| == |InFlight(unacked, v)| - if Num(n) / WINDOW_SIZE == v then 1 else 0
  {
    hide InFlight, Num;
    InFlightGrows(unacked - {n}, n, v);
    assert unacked - {n} + {n} == unacked;
  }

  lemma FirstSendCounts(ws: Windows, unacked: set<nat>, n: nat)
    requires Counts(ws, unacked) && n !in unacked && |InFlight(unacked, Num(n) / WINDOW_SIZE)| < SPACE - 1
    ensures Counts(Counted(ws, Num(n)), unacked + {n})
  {
    hide InFlight, Num;
    var w, next := Num(n) / WINDOW_SIZE, Counted(ws, Num(n));
    forall v: nat | v < WINDOWS
      ensures next.counts[v] == |InFlight(unacked + {n}, v)| && (v in next.used <==> next.counts[v] > 0)
    {
      InFlightGrows(unacked, n, v);
    }
  }

  lemma AcknowledgeCounts(ws: Windows, unacked: set<nat>, n: nat)
    requires Counts(ws, unacked) && n in unacked
    ensures Counts(Discounted(ws, Num(n)), unacked - {n})
  {
    hide InFlight, Num;
    var w, next := Num(n) / WINDOW_SIZE, Discounted(ws, Num(n));
    InFlightShrinks(unacked, n, w);
    forall v: nat | v < WINDOWS
      ensures next.counts[v] == |InFlight(unacked - {n}, v)| && (v in next.used <==> next.counts[v] > 0)
    {
      InFlightShrinks(unacked, n, v);
    }
  }
}
