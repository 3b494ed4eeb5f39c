/** Unsequenced packets: the bitmap by which a peer keeps from queueing a group twice, over runs of a
    network that loses, duplicates and reorders. */
module UnsequencedWindow {
  import opened Words

  const SPACE := 0x1_0000
  const WINDOW := 1024
  const FREE_WINDOWS := 32

  // ---- enet_protocol_handle_send_unsequenced

  /** incomingUnsequencedGroup and the bits of unsequencedWindow */
  datatype Receiver = Receiver(base: uint16, bits: seq<bool>)

  function NoBits(): (b: seq<bool>)
    ensures |b| == WINDOW && forall i :: 0 <= i < WINDOW ==> !b[i]
  {
    seq(WINDOW, _ => false)
  }

  /** The groups that are not taken for old ones. */
  predicate Ahead(base: uint16, group: uint16) {
    (if group < base then group + SPACE else group) < base + FREE_WINDOWS * WINDOW
  }

  /** The receiver after a group, and whether the group's packet was queued; room says whether the queue takes it. */
  function Receive(r: Receiver, group: uint16, room: bool): (Receiver, bool)
    requires |r.bits| == WINDOW
  {
    var index := group % WINDOW;
    if !Ahead(r.base, group) then (r, false)
    else
      var moved := if group - index != r.base then Receiver(group - index, NoBits()) else r;
      if moved.bits[index] || !room then (moved, false)
      else (moved.(bits := moved.bits[index := true]), true)
  }

  /** What a group does: it is queued just if it lies less than 32768 ahead of the window's first group,
      modulo the number space, its bit is not set in its window, and there is room; and it moves the window
      to its own whether there is room or not. */
  lemma ReceiveIs(r: Receiver, group: uint16, room: bool)
    requires |r.bits| == 1024 && r.base % 1024 == 0
    ensures var (t, queued) := Receive(r, group, room);
      var near, here := (group - r.base) % 0x1_0000 < 32768, group / 1024 * 1024 == r.base;
      && (queued <==> near && room && !(here && r.bits[group % 1024]))
      && t.base == (if near then group / 1024 * 1024 else r.base)
      && |t.bits| == 1024 && forall i :: 0 <= i < 1024 ==>
        (t.bits[i] <==> (t.base == r.base && r.bits[i]) || (queued && i == group % 1024))
  {
    AheadIs(r.base, group);
    assert group / 1024 * 1024 == group - group % 1024;
  }

  lemma AheadIs(base: uint16, group: uint16)
    ensures Ahead(base, group) <==> (group - base) % 0x1_0000 < 32768
  {
    assert (group - base) % 0x1_0000 == if group < base then group - base + 0x1_0000 else group - base;
  }

  /** The bitmap is cleared and set in place. */
  class Window {
    var base: uint16
    const bits: array<bool>

    ghost function Value(): Receiver
      reads this, bits
    {
      Receiver(base, bits[..])
    }

    constructor ()
      ensures bits.Length == WINDOW && Value() == Receiver(0, NoBits()) && fresh(bits)
    {
      base := 0;
      bits := new bool[WINDOW](_ => false);
      new;
      assert bits[..] == NoBits();
    }

    /** handled is false where the source returns an error. */
    method Handle(unsequencedGroup: uint16, room: bool) returns (handled: bool, queued: bool)
      requires bits.Length == WINDOW
      modifies this`base, bits
      ensures (Value(), queued) == Receive(old(Value()), unsequencedGroup, room)
      ensures handled <==> queued || !Receive(old(Value()), unsequencedGroup, true).1
    {
      var index := unsequencedGroup % WINDOW;
      var group: int := unsequencedGroup;
      if group < base {
        group := group + SPACE;
      }
      if group >= base + FREE_WINDOWS * WINDOW {
        return true, false;
      }
      group := group % SPACE;
      if group - index != base {
        base := group - index;
        for i := 0 to WINDOW
          invariant base == group - index && forall k :: 0 <= k < i ==> !bits[k]
        {
          bits[i] := false;
        }
        assert Value() == Receiver(unsequencedGroup - index, NoBits());
      } else if bits[index] {
        return true, false;
      }
      if !room {
        return false, false;
      }
      bits[index] := true;
      return true, true;
    }
  }

  // ---- runs

  /** sent: the last group sent (the unbounded outgoingUnsequencedGroup); queued: the groups whose
      packets were queued. */
  datatype State = State(sent: nat, receiver: Receiver, queued: seq<nat>)

  datatype Step = Send | Deliver(group: nat, room: bool)

  function Start(): State { State(0, Receiver(0, NoBits()), []) }

  /** A datagram arrives while its group is at most 0x8000 groups old. */
  ghost predicate Next(s: State, step: Step, t: State) {
    match step
    case Send => t == s.(sent := s.sent + 1)
    case Deliver(group, room) =>
      && 1 <= group <= s.sent <= group + SPACE / 2
      && (|s.receiver.bits| == WINDOW ==>
          var r := Receive(s.receiver, group % SPACE, room);
          t == s.(receiver := r.0, queued := s.queued + if r.1 then [group] else []))
  }

  ghost predicate Run(states: seq<State>, steps: seq<Step>) {
    && |states| == |steps| + 1 && states[0] == Start()
    && forall k :: 0 <= k < |steps| ==> Next(states[k], steps[k], states[k + 1])
  }

  /** base is the unbounded number of the window's first group. */
  ghost predicate InvAt(s: State, base: nat) {
    && |s.receiver.bits| == WINDOW
    && base % WINDOW == 0 && base <= s.sent && s.receiver.base == base % SPACE
    && (forall k :: 0 <= k < |s.queued| ==>
        s.queued[k] < base || (s.queued[k] < base + WINDOW && s.receiver.bits[s.queued[k] - base]))
    && forall j, k :: 0 <= j < k < |s.queued| ==> s.queued[j] != s.queued[k]
  }

  /** A group before the window's first is told from a new one just when it is at most half the
      number space older, modulo the number space. */
  lemma OldIsRefused(base: nat, group: nat)
    requires group < base && base % WINDOW == 0
    ensures !Ahead(base % SPACE, group % SPACE) <==> 0 < (base - group) % SPACE <= SPACE / 2
  {
    var d, b, g := (base - group) % SPACE, base % SPACE, group % SPACE;
    assert d == if g <= b then b - g else b + SPACE - g;
  }

  lemma AlignedGroup(group: nat)
    ensures group % SPACE % WINDOW == group % WINDOW
    ensures (group - group % WINDOW) % SPACE == group % SPACE - group % WINDOW
    ensures (group - group % WINDOW) % WINDOW == 0
  {
    var a, b := group / SPACE, group % SPACE;
    var c, d := b / WINDOW, b % WINDOW;
    assert group == a * SPACE + b && b == c * WINDOW + d;
    assert group == (a * 64 + c) * WINDOW + d;
    assert group % WINDOW == d;
    assert group - d == a * SPACE + c * WINDOW;
  }

  lemma DeliverKeeps(s: State, base: nat, group: nat, room: bool, t: State) returns (base': nat)
    requires InvAt(s, base) && Next(s, Deliver(group, room), t)
    ensures InvAt(t, base') && (base' == base || base' == group - group % WINDOW)
  {
    AlignedGroup(group);
    if !Ahead(s.receiver.base, group % SPACE) {
      base' := base;
    } else {
      if group < base {
        OldIsRefused(base, group);
        assert false;
      }
      base' := group - group % WINDOW;
      NewWindow(base, group);
      MovedKeeps(s, base, group, room, t, base');
    }
  }

  lemma NewWindow(base: nat, group: nat)
    requires base <= group && base % WINDOW == 0
    ensures var base' := group - group % WINDOW; base' == base || base + WINDOW <= base'
  {
  }

  lemma MovedKeeps(s: State, base: nat, group: nat, room: bool, t: State, base': nat)
    requires InvAt(s, base) && Next(s, Deliver(group, room), t) && Ahead(s.receiver.base, group % SPACE)
    requires base' == group - group % WINDOW && (base' == base || base + WINDOW <= base')
    requires group % SPACE % WINDOW == group % WINDOW && base' % WINDOW == 0 && base' % SPACE == group % SPACE - group % WINDOW
    ensures InvAt(t, base')
  {
    hide Ahead;
    var r := Receive(s.receiver, group % SPACE, room);
    assert t == s.(receiver := r.0, queued := s.queued + if r.1 then [group] else []);
    forall k | 0 <= k < |s.queued| ensures s.queued[k] < base' || (s.queued[k] < base' + WINDOW && r.0.bits[s.queued[k] - base']) {
    }
    if r.1 {
      forall k | 0 <= k < |s.queued| ensures s.queued[k] != group {
      }
    }
  }

  lemma {:induction false} RunKeeps(states: seq<State>, steps: seq<Step>, k: nat) returns (base: nat)
    requires Run(states, steps) && k < |states|
    ensures InvAt(states[k], base)
  {
    hide InvAt, Next;
    if k == 0 {
      base := 0;
      StartInv();
    } else {
      base := RunKeeps(states, steps, k - 1);
      base := NextKeeps(states[k - 1], base, steps[k - 1], states[k]);
    }
  }

  lemma StartInv()
    ensures InvAt(Start(), 0)
  {
  }

  lemma NextKeeps(s: State, base: nat, step: Step, t: State) returns (base': nat)
    requires InvAt(s, base) && Next(s, step, t)
    ensures InvAt(t, base')
  {
    match step
    case Send => base' := base;
    case Deliver(group, room) => base' := DeliverKeeps(s, base, group, room, t);
  }

  /** In every run no group is queued twice, and the receiver's first group stays a multiple of the window. */
  lemma QueuedAtMostOnce(states: seq<State>, steps: seq<Step>, k: nat)
    requires Run(states, steps) && k < |states|
    ensures forall i, j :: 0 <= i < j < |states[k].queued| ==> states[k].queued[i] != states[k].queued[j]
    ensures states[k].receiver.base % WINDOW == 0
  {
    var base := RunKeeps(states, steps, k);
  }

  // ---- which groups are queued

  /** The window begins with the window of some group that was delivered, or has not moved yet. */
  ghost predicate Moved(steps: seq<Step>, k: nat, base: nat) {
    base == 0 || exists j :: 0 <= j < k && j < |steps| && MovedBy(steps[j], base)
  }

  ghost predicate MovedBy(step: Step, base: nat) {
    step.Deliver? && base == step.group - step.group % WINDOW
  }

  /** The bitmap says just which groups were queued since the window last moved: those from n on. */
  ghost predicate Since(s: State, n: nat) {
    && |s.receiver.bits| == WINDOW && s.receiver.base % WINDOW == 0 && n <= |s.queued|
    && (forall k :: n <= k < |s.queued| ==> s.queued[k] % SPACE / WINDOW * WINDOW == s.receiver.base)
    && forall i: nat :: i < WINDOW ==> (s.receiver.bits[i] <==> Has(s.queued, n, s.receiver.base + i))
  }

  ghost predicate Has(queued: seq<nat>, n: nat, g: nat) {
    exists k :: n <= k < |queued| && queued[k] % SPACE == g
  }

  lemma HasMore(queued: seq<nat>, n: nat, x: nat, g: nat)
    requires n <= |queued|
    ensures Has(queued + [x], n, g) <==> Has(queued, n, g) || x % SPACE == g
  {
    var more := queued + [x];
    assert more[|queued|] == x;
    if Has(queued, n, g) {
      var k :| n <= k < |queued| && queued[k] % SPACE == g;
      assert more[k] == queued[k];
    }
  }

  lemma SinceNext(s: State, n: nat, step: Step, t: State) returns (n': nat)
    requires Since(s, n) && Next(s, step, t)
    ensures Since(t, n')
  {
    match step
    case Send => n' := n;
    case Deliver(group, room) =>
      ReceiveIs(s.receiver, group % SPACE, room);
      n' := if t.receiver.base == s.receiver.base then n else |s.queued|;
      SinceReceive(s, n, group, room, t, n');
  }

  lemma SinceReceive(s: State, n: nat, group: nat, room: bool, t: State, n': nat)
    requires Since(s, n) && Next(s, Deliver(group, room), t)
    requires n' == if t.receiver.base == s.receiver.base then n else |s.queued|
    ensures Since(t, n')
  {
    hide Receive, Has;
    var g := group % SPACE;
    ReceiveIs(s.receiver, g, room);
    assert s.queued + [] == s.queued;
    forall i: nat | i < WINDOW ensures t.receiver.bits[i] <==> Has(t.queued, n', t.receiver.base + i) {
      HasMore(s.queued, n', group, t.receiver.base + i);
      HasNone(s.queued, t.receiver.base + i);
    }
  }

  lemma HasNone(queued: seq<nat>, g: nat)
    ensures !Has(queued, |queued|, g)
  {
  }

  lemma {:induction false} BaseIs(states: seq<State>, steps: seq<Step>, k: nat) returns (base: nat, n: nat)
    requires Run(states, steps) && k < |states|
    ensures InvAt(states[k], base) && Moved(steps, k, base) && Since(states[k], n)
  {
    hide InvAt, Since;
    if k == 0 {
      base, n := 0, 0;
      StartInv();
      StartSince();
    } else {
      base, n := BaseIs(states, steps, k - 1);
      var was, step := base, steps[k - 1];
      assert Next(states[k - 1], step, states[k]);
      n := SinceNext(states[k - 1], n, step, states[k]);
      base := NextBase(states[k - 1], was, step, states[k]);
      if base == was {
        if j :| 0 <= j < k - 1 && MovedBy(steps[j], base) {
          assert MovedBy(steps[j], base);
        }
      } else {
        assert MovedBy(steps[k - 1], base);
      }
    }
  }

  lemma StartSince()
    ensures Since(Start(), 0)
  {
  }

  lemma NextBase(s: State, base: nat, step: Step, t: State) returns (base': nat)
    requires InvAt(s, base) && Next(s, step, t)
    ensures InvAt(t, base') && (base' == base || MovedBy(step, base'))
  {
    match step
    case Send => base' := base;
    case Deliver(group, room) => base' := DeliverKeeps(s, base, group, room, t);
  }

  /** A group that is delivered in a run is queued if and only if it is not before the window that the
      run has reached, lies less than 32768 groups ahead of it modulo the number space, has not the 16 bits
      of a group queued since the window last moved, and there is room. */
  lemma QueuedIs(states: seq<State>, steps: seq<Step>, k: nat) returns (base: nat, n: nat)
    requires Run(states, steps) && k < |steps| && steps[k].Deliver?
    ensures Moved(steps, k, base) && Since(states[k], n)
    ensures var group := steps[k].group;
      states[k + 1].queued == states[k].queued + [group]
      <==> base <= group && (group - base) % 0x1_0000 < 32768 && !Has(states[k].queued, n, group % 0x1_0000) && steps[k].room
  {
    hide Moved, Since, InvAt, Has;
    base, n := BaseIs(states, steps, k);
    assert Next(states[k], steps[k], states[k + 1]);
    DeliveredIs(states[k], base, n, steps[k].group, steps[k].room, states[k + 1]);
  }

  lemma DeliveredIs(s: State, base: nat, n: nat, group: nat, room: bool, t: State)
    requires InvAt(s, base) && Since(s, n) && Next(s, Deliver(group, room), t)
    ensures t.queued == s.queued + [group]
      <==> base <= group && (group - base) % SPACE < 32768 && !Has(s.queued, n, group % SPACE) && room
  {
    hide Receive, Has, Ahead, InvAt, Since;
    var g := group % SPACE;
    BaseOf(s, base, group);
    Told(s, n, g);
    ReceiveIs(s.receiver, g, room);
    assert |s.queued + []| != |s.queued + [group]|;
    if group < base {
      OldIsRefused(base, group);
      AheadIs(s.receiver.base, g);
    }
  }

  lemma BaseOf(s: State, base: nat, group: nat)
    requires InvAt(s, base)
    ensures |s.receiver.bits| == WINDOW && base % WINDOW == 0 && base <= s.sent && s.receiver.base == base % SPACE
    ensures s.receiver.base % WINDOW == 0 && (group - base) % SPACE == (group % SPACE - s.receiver.base) % SPACE
  {
    AlignedGroup(base);
    DifferenceMod(group, base);
  }

  lemma DifferenceMod(a: nat, b: nat)
    ensures (a - b) % SPACE == (a % SPACE - b % SPACE) % SPACE
  {
  }

  /** The bit that is looked at says whether a group with these 16 bits was queued since the window moved. */
  lemma Told(s: State, n: nat, g: uint16)
    requires Since(s, n)
    ensures Has(s.queued, n, g) <==> g / 1024 * 1024 == s.receiver.base && s.receiver.bits[g % 1024]
  {
    if g / 1024 * 1024 == s.receiver.base {
      assert s.receiver.base + g % 1024 == g;
    }
  }
}
