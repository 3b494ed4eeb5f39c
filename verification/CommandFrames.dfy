/** Calls of aliases in the script language: the arguments that a call binds, the frame that keeps what
    they hid, and the compiled code that runs. */
module CommandFrames {
  import opened Words
  import opened FiniteSets
  import opened Sums
  import opened AliasCalls

  /** stack: the frames (their places in the chain) whose slot holds a hidden value, the last one on top;
      code: the compiled code, -1 for none. */
  datatype Ident = Ident(val: Value, stack: seq<nat>, code: int, known: bool, overridden: bool)

  /** identlink with its argstack: usedargs, and the values hidden by the frame's bindings. */
  datatype Frame = Frame(used: set<nat>, slots: map<nat, Value>)

  /** Compiled code; the count is kept in its first word. */
  datatype Block = Block(refs: int, ops: seq<Op>)

  // ---- reference counts

  function Holders(ids: seq<Ident>, c: nat): (s: seq<nat>)
    ensures |s| == |ids|
  {
    seq(|ids|, i requires 0 <= i < |ids| => if ids[i].code == c then 1 else 0)
  }

  /** How many times c is running. */
  function Running(active: seq<nat>, c: nat): nat {
    if active == [] then 0 else Running(active[..|active| - 1], c) + if active[|active| - 1] == c then 1 else 0
  }

  /** Every block counts the identifiers that hold it and the calls that run it, and there is one. */
  ghost predicate CodesOk(ids: seq<Ident>, codes: map<nat, Block>, active: seq<nat>, next: nat) {
    && (forall c :: c in codes ==> c < next && codes[c].refs == Sum(Holders(ids, c)) + Running(active, c) && codes[c].refs >= 1)
    && (forall i :: 0 <= i < |ids| ==> ids[i].code == -1 || (ids[i].code >= 0 && ids[i].code in codes))
    && forall k :: 0 <= k < |active| ==> active[k] in codes
  }

  /** The compiled code that an identifier holds is that of its value. */
  ghost predicate Cached(x: Ident, codes: map<nat, Block>) {
    x.code >= 0 && x.code in codes ==> codes[x.code].ops == x.val.ops
  }

  /** The map after one reference less. */
  function Dropped(codes: map<nat, Block>, c: nat): map<nat, Block>
    requires c in codes
  {
    if codes[c].refs - 1 < 1 then codes - {c} else codes[c := codes[c].(refs := codes[c].refs - 1)]
  }

  lemma HoldersUpdate(ids: seq<Ident>, i: nat, x: Ident, c: nat)
    requires i < |ids|
    ensures Sum(Holders(ids[i := x], c)) ==
      Sum(Holders(ids, c)) - (if ids[i].code == c then 1 else 0) + (if x.code == c then 1 else 0)
  {
    SumUpdate(Holders(ids, c), i, if x.code == c then 1 else 0);
    assert Holders(ids[i := x], c) == Holders(ids, c)[i := if x.code == c then 1 else 0];
  }

  lemma {:induction false} RunningSome(active: seq<nat>, c: nat)
    ensures Running(active, c) > 0 <==> c in active
  {
    if active != [] {
      RunningSome(active[..|active| - 1], c);
    }
  }

  lemma RunningMore(active: seq<nat>, x: nat, c: nat)
    ensures Running(active + [x], c) == Running(active, c) + if x == c then 1 else 0
  {
    assert (active + [x])[..|active|] == active;
  }

  /** cleancode: the identifier lets go of its code. */
  lemma LetsGo(ids: seq<Ident>, codes: map<nat, Block>, active: seq<nat>, next: nat, i: nat)
    requires CodesOk(ids, codes, active, next) && i < |ids| && ids[i].code >= 0
    ensures ids[i].code in codes
    ensures CodesOk(ids[i := ids[i].(code := -1)], Dropped(codes, ids[i].code), active, next)
  {
    hide Sum, Holders, Running;
    var c, ids' := ids[i].code, ids[i := ids[i].(code := -1)];
    var codes' := Dropped(codes, c);
    forall b: nat ensures Sum(Holders(ids', b)) == Sum(Holders(ids, b)) - if b == c then 1 else 0 {
      HoldersUpdate(ids, i, ids[i].(code := -1), b);
    }
    RunningSome(active, c);
    forall j | 0 <= j < |ids'| && ids'[j].code == c ensures c in codes' {
      HolderCounts(ids', j);
    }
  }

  lemma HolderCounts(ids: seq<Ident>, j: nat)
    requires j < |ids| && ids[j].code >= 0
    ensures Sum(Holders(ids, ids[j].code)) >= 1
  {
    SumLeast(Holders(ids, ids[j].code), j);
  }

  /** The code of an identifier starts to run. */
  lemma StartsRunning(ids: seq<Ident>, codes: map<nat, Block>, active: seq<nat>, next: nat, c: nat)
    requires CodesOk(ids, codes, active, next) && c in codes
    ensures CodesOk(ids, codes[c := codes[c].(refs := codes[c].refs + 1)], active + [c], next)
  {
    hide Sum, Holders, Running;
    forall b: nat ensures Running(active + [c], b) == Running(active, b) + if b == c then 1 else 0 {
      RunningMore(active, c, b);
    }
  }

  lemma StopsRunning(ids: seq<Ident>, codes: map<nat, Block>, active: seq<nat>, next: nat, c: nat)
    requires CodesOk(ids, codes, active + [c], next)
    ensures c in codes && CodesOk(ids, Dropped(codes, c), active, next)
  {
    hide Sum, Holders, Running;
    var codes' := Dropped(codes, c);
    assert (active + [c])[|active|] == c;
    forall b: nat ensures Running(active + [c], b) == Running(active, b) + if b == c then 1 else 0 {
      RunningMore(active, c, b);
    }
    forall k | 0 <= k < |active| ensures active[k] in codes' {
      assert (active + [c])[k] == active[k];
      RunningSome(active, c);
    }
    forall j | 0 <= j < |ids| && ids[j].code == c ensures c in codes' {
      HolderCounts(ids, j);
    }
  }

  /** compilecode: a new block, held by the identifier alone. */
  lemma Compiled(ids: seq<Ident>, codes: map<nat, Block>, active: seq<nat>, next: nat, i: nat, ops: seq<Op>)
    requires CodesOk(ids, codes, active, next) && i < |ids| && ids[i].code == -1
    ensures CodesOk(ids[i := ids[i].(code := next)], codes[next := Block(1, ops)], active, next + 1)
  {
    hide Sum, Holders, Running;
    var ids' := ids[i := ids[i].(code := next)];
    forall b: nat ensures Sum(Holders(ids', b)) == Sum(Holders(ids, b)) + if b == next then 1 else 0 {
      HoldersUpdate(ids, i, ids[i].(code := next), b);
    }
    NoHolder(ids, next);
    RunningSome(active, next);
  }

  lemma NoHolder(ids: seq<Ident>, c: nat)
    requires forall i :: 0 <= i < |ids| ==> ids[i].code != c
    ensures Sum(Holders(ids, c)) == 0
  {
    SumZero(Holders(ids, c));
  }

  /** Changes of values and stacks do not touch the counts. */
  lemma SameCodes(ids: seq<Ident>, ids': seq<Ident>, codes: map<nat, Block>, active: seq<nat>, next: nat)
    requires CodesOk(ids, codes, active, next) && |ids'| == |ids| && forall i :: 0 <= i < |ids| ==> ids'[i].code == ids[i].code
    ensures CodesOk(ids', codes, active, next)
  {
    forall c: nat ensures Holders(ids', c) == Holders(ids, c) {
    }
  }

  // ---- frames

  ghost predicate BindsArguments(frame: Frame) {
    forall i :: i in frame.used ==> i < MAXARGS
  }

  /** What a frame's own code may do to the arguments and to the frame on top, place d of the chain: it
      binds arguments that were not bound, hiding what they had in the frame's slots, and sets bound ones. */
  ghost predicate InFrame(a: seq<Ident>, f: seq<Frame>, b: seq<Ident>, g: seq<Frame>) {
    && |a| == |b| == IDENTS && |f| == |g| > 0 && f[..|f| - 1] == g[..|g| - 1]
    && f[|f| - 1].used <= g[|g| - 1].used
    && forall i :: 0 <= i < MAXARGS ==> ArgInFrame(a[i], f[|f| - 1], b[i], g[|g| - 1], i, |f| - 1)
  }

  ghost predicate ArgInFrame(x: Ident, f: Frame, y: Ident, g: Frame, i: nat, d: nat) {
    && (i in f.used ==> y.stack == x.stack && SameSlot(f, g, i))
    && (i !in f.used && i in g.used ==> y.stack == x.stack + [d] && i in g.slots && g.slots[i] == x.val)
    && (i !in g.used ==> y.stack == x.stack && y.val == x.val && SameSlot(f, g, i))
  }

  ghost predicate SameSlot(f: Frame, g: Frame, i: nat) {
    (i in f.slots <==> i in g.slots) && (i in f.slots ==> g.slots[i] == f.slots[i])
  }

  lemma InFrameNothing(a: seq<Ident>, f: seq<Frame>)
    requires |a| == IDENTS && |f| > 0
    ensures InFrame(a, f, a, f)
  {
  }

  lemma InFrameTwice(a: seq<Ident>, f: seq<Frame>, b: seq<Ident>, g: seq<Frame>, c: seq<Ident>, h: seq<Frame>)
    requires InFrame(a, f, b, g) && InFrame(b, g, c, h)
    ensures InFrame(a, f, c, h)
  {
    forall i | 0 <= i < MAXARGS ensures ArgInFrame(a[i], f[|f| - 1], c[i], h[|h| - 1], i, |f| - 1) {
      assert ArgInFrame(a[i], f[|f| - 1], b[i], g[|g| - 1], i, |f| - 1);
      assert ArgInFrame(b[i], g[|g| - 1], c[i], h[|h| - 1], i, |f| - 1);
    }
  }

  /** The arguments as they were, whatever became of their compiled code. */
  ghost predicate ArgsSame(a: seq<Ident>, b: seq<Ident>) {
    |a| == |b| == IDENTS && forall i :: 0 <= i < MAXARGS ==> b[i].val == a[i].val && b[i].stack == a[i].stack
  }

  /** The blocks that are running are still there, and unchanged. */
  ghost predicate Kept(was: map<nat, Block>, codes: map<nat, Block>, active: seq<nat>) {
    forall c :: c in active ==> c in was && c in codes && codes[c].ops == was[c].ops
  }

  lemma CodesStay(ids: seq<Ident>, codes: map<nat, Block>, active: seq<nat>, next: nat)
    requires CodesOk(ids, codes, active, next)
    ensures Kept(codes, codes, active)
  {
  }

  lemma FrameSame(a: seq<Ident>, b: seq<Ident>, f: seq<Frame>)
    requires ArgsSame(a, b) && |f| > 0
    ensures InFrame(a, f, b, f)
  {
  }

  lemma DroppedSame(codes: map<nat, Block>, c: nat)
    requires c in codes
    ensures forall x :: x in Dropped(codes, c) ==> x in codes && Dropped(codes, c)[x].ops == codes[x].ops
  {
  }

  lemma KeptTwice(a: map<nat, Block>, b: map<nat, Block>, c: map<nat, Block>, active: seq<nat>)
    requires Kept(a, b, active) && Kept(b, c, active)
    ensures Kept(a, c, active)
  {
  }

  lemma KeptFewer(b: map<nat, Block>, c: map<nat, Block>, active: seq<nat>, more: seq<nat>)
    requires Kept(b, c, active + more)
    ensures Kept(b, c, active)
  {
    forall x | x in active ensures x in b && x in c && c[x].ops == b[x].ops {
      assert x in active + more;
    }
  }

  lemma KeptThrough(start: map<nat, Block>, taken: map<nat, Block>, ran: map<nat, Block>, last: map<nat, Block>, active: seq<nat>, c: nat)
    requires Kept(start, taken, active) && Kept(taken, ran, active + [c]) && Kept(ran, last, active)
    ensures Kept(start, last, active)
  {
    hide Kept;
    KeptFewer(taken, ran, active, [c]);
    KeptTwice(start, taken, ran, active);
    KeptTwice(start, ran, last, active);
  }

  /** The first newargs arguments are bound in the new frame, and no others. */
  ghost predicate Pushed(before: seq<Ident>, ids: seq<Ident>, slots: map<nat, Value>, newargs: nat, d: nat) {
    && |before| == |ids| == IDENTS
    && forall i :: 0 <= i < MAXARGS ==>
      if i < newargs then ids[i].stack == before[i].stack + [d] && i in slots && slots[i] == before[i].val
      else ids[i].stack == before[i].stack && ids[i].val == before[i].val && i !in slots
  }

  /** What the frame used can be given back; what it did not use is as it was. */
  ghost predicate Restorable(before: seq<Ident>, ids: seq<Ident>, frame: Frame, d: nat) {
    && |before| == |ids| == IDENTS
    && forall i :: 0 <= i < MAXARGS ==> CanRestore(before[i], ids[i], frame, i, d)
  }

  ghost predicate CanRestore(x: Ident, y: Ident, frame: Frame, i: nat, d: nat) {
    if i in frame.used then y.stack == x.stack + [d] && i in frame.slots && frame.slots[i] == x.val
    else y.stack == x.stack && y.val == x.val
  }

  /** Whatever ran in the new frame, it can be undone. */
  lemma ReturnsTo(before: seq<Ident>, chain: seq<Frame>, pushed: seq<Ident>, bound: set<nat>, slots: map<nat, Value>, newargs: nat,
                  ids: seq<Ident>, frames: seq<Frame>)
    requires Pushed(before, pushed, slots, newargs, |chain|) && forall i: nat :: i in bound <==> i < newargs
    requires newargs <= MAXARGS
    requires InFrame(pushed, chain + [Frame(bound, slots)], ids, frames)
    ensures |frames| == |chain| + 1 && frames[..|chain|] == chain && Restorable(before, ids, frames[|chain|], |chain|)
    ensures forall i: nat :: i < newargs ==> i in frames[|chain|].used
  {
    var f, g := Frame(bound, slots), frames[|chain|];
    forall i | 0 <= i < MAXARGS ensures CanRestore(before[i], ids[i], g, i, |chain|) {
      assert ArgInFrame(pushed[i], f, ids[i], g, i, |chain|);
    }
  }

  lemma PushedSame(before: seq<Ident>, pushed: seq<Ident>, ids: seq<Ident>, slots: map<nat, Value>, newargs: nat, d: nat)
    requires Pushed(before, pushed, slots, newargs, d) && |ids| == |pushed|
    requires forall i :: 0 <= i < |ids| ==> ids[i] == pushed[i].(code := ids[i].code)
    ensures Pushed(before, ids, slots, newargs, d)
  {
  }

  /** The arguments in done have been given back; the others of the frame can be. */
  ghost predicate PoppedOf(before: seq<Ident>, ids: seq<Ident>, frame: Frame, d: nat, done: set<nat>) {
    && |before| == |ids| == IDENTS
    && forall i :: 0 <= i < MAXARGS ==>
      if i in done then ids[i].val == before[i].val && ids[i].stack == before[i].stack else CanRestore(before[i], ids[i], frame, i, d)
  }

  lemma NonePopped(before: seq<Ident>, ids: seq<Ident>, frame: Frame, d: nat)
    requires Restorable(before, ids, frame, d)
    ensures PoppedOf(before, ids, frame, d, {})
  {
  }

  lemma AllPopped(before: seq<Ident>, ids: seq<Ident>, frame: Frame, d: nat, done: set<nat>)
    requires PoppedOf(before, ids, frame, d, done) && forall i :: i in frame.used ==> i in done
    ensures ArgsSame(before, ids)
  {
  }

  lemma BelowInterval(n: nat)
    ensures forall i: nat :: i in Interval(0, n) <==> i < n
  {
  }

  lemma NextIsNew(ids: seq<Ident>, codes: map<nat, Block>, active: seq<nat>, next: nat)
    requires CodesOk(ids, codes, active, next)
    ensures next !in codes
  {
  }

  lemma HasCode(ids: seq<Ident>, codes: map<nat, Block>, active: seq<nat>, next: nat, a: nat)
    requires CodesOk(ids, codes, active, next) && a < |ids| && ids[a].code != -1
    ensures ids[a].code >= 0 && ids[a].code in codes
  {
  }

  lemma StaysCached(x: Ident, codes: map<nat, Block>, c: nat)
    requires Cached(x, codes) && c in codes
    ensures Cached(x, Dropped(codes, c))
  {
  }

  lemma AllCached(ids: seq<Ident>, codes: map<nat, Block>, active: seq<nat>, next: nat, ops: seq<Op>)
    requires CodesOk(ids, codes, active, next) && forall k :: 0 <= k < |ids| ==> Cached(ids[k], codes)
    ensures forall k :: 0 <= k < |ids| ==> Cached(ids[k], codes[next := Block(1, ops)])
  {
    hide Sum, Holders, Running;
  }

  /** The chain when the frame on top has bound argument i, which had this value. */
  function Binds(frames: seq<Frame>, i: nat, hidden: Value): seq<Frame>
    requires |frames| > 0
  {
    var d := |frames| - 1;
    frames[..d] + [Frame(frames[d].used + {i}, frames[d].slots[i := hidden])]
  }

  // ---- what the code that runs sees

  /** The identifiers without their stacks and their compiled code. */
  function AliasesOf(ids: seq<Ident>): (r: seq<Alias>)
    ensures |r| == |ids|
  {
    seq(|ids|, i requires 0 <= i < |ids| => Alias(if i < MAXARGS then Value([]) else ids[i].val, ids[i].known, ids[i].overridden))
  }

  /** The values of the arguments that the frame on top has bound. */
  function ArgsOf(ids: seq<Ident>, frames: seq<Frame>): map<ArgIndex, Value>
    requires |frames| > 0
  {
    map i: ArgIndex | i in frames[|frames| - 1].used && i < |ids| :: ids[i].val
  }

  function ScopeOf(ids: seq<Ident>, frames: seq<Frame>, numargs: nat, overriding: bool): Scope
    requires |frames| > 0
  {
    Scope(ArgsOf(ids, frames), AliasesOf(ids), numargs, overriding)
  }

  lemma FlagsOf(ids: seq<Ident>, a: nat)
    requires a < |ids|
    ensures AliasesOf(ids)[a].known == ids[a].known && AliasesOf(ids)[a].overridden == ids[a].overridden
  {
  }

  lemma ScopeBinds(ids: seq<Ident>, frames: seq<Frame>, i: ArgIndex, v: Value, ids': seq<Ident>, frames': seq<Frame>)
    requires |ids| == |ids'| == IDENTS && |frames| > 0
    requires ids' == ids[i := ids[i].(val := v, stack := ids'[i].stack, code := ids'[i].code)]
    requires frames' == (if i in frames[|frames| - 1].used then frames else Binds(frames, i, ids[i].val))
    ensures AliasesOf(ids') == AliasesOf(ids) && ArgsOf(ids', frames') == ArgsOf(ids, frames)[i := v]
  {
  }

  lemma ScopeSets(ids: seq<Ident>, frames: seq<Frame>, a: AliasIndex, v: Value, overriding: bool, ids': seq<Ident>)
    requires |ids| == IDENTS && |frames| > 0 && BindsArguments(frames[|frames| - 1])
    requires ids' == ids[a := ids[a].(val := v, code := -1, known := true, overridden := overriding)]
    ensures AliasesOf(ids') == AliasesOf(ids)[a := Alias(v, true, overriding)] && ArgsOf(ids', frames) == ArgsOf(ids, frames)
  {
  }

  /** Arguments that get other values, stacks or code leave the aliases as they are. */
  lemma SameAliases(ids: seq<Ident>, ids': seq<Ident>)
    requires |ids'| == |ids|
    requires forall i :: 0 <= i < |ids| ==> ids'[i].known == ids[i].known && ids'[i].overridden == ids[i].overridden
    requires forall i :: MAXARGS <= i < |ids| ==> ids'[i].val == ids[i].val
    ensures AliasesOf(ids') == AliasesOf(ids)
  {
  }

  /** A call that has just been entered. */
  lemma ScopeEntered(before: seq<Ident>, chain: seq<Frame>, numargs: nat, overriding: bool, a: nat, args: seq<Value>,
                     ids: seq<Ident>, slots: map<nat, Value>, bound: set<nat>)
    requires |before| == |ids| == IDENTS && a < IDENTS && |args| <= MAXARGS && |chain| > 0
    requires AliasesOf(ids) == AliasesOf(before) && forall i :: 0 <= i < |args| ==> ids[i].val == args[i]
    requires forall i: nat :: i in bound <==> i < |args|
    ensures ScopeOf(ids, chain + [Frame(bound, slots)], |args|, overriding || before[a].overridden)
            == Entered(a, args, ScopeOf(before, chain, numargs, overriding))
  {
  }

  /** What runs is the value that the identifier has once the arguments are bound. */
  lemma BodyIs(before: seq<Ident>, chain: seq<Frame>, numargs: nat, overriding: bool, a: nat, args: seq<Value>, ids: seq<Ident>)
    requires |before| == |ids| == IDENTS && a < IDENTS && |args| <= MAXARGS && |chain| > 0
    requires a >= MAXARGS || a in chain[|chain| - 1].used
    requires forall i :: 0 <= i < |args| ==> ids[i].val == args[i]
    requires forall i :: |args| <= i < IDENTS ==> ids[i].val == before[i].val
    requires BindsArguments(chain[|chain| - 1])
    ensures ids[a].val == Body(a, args, ScopeOf(before, chain, numargs, overriding))
  {
  }

  lemma ScopeLeft(before: seq<Ident>, chain: seq<Frame>, ids: seq<Ident>)
    requires ArgsSame(before, ids) && |chain| > 0 && BindsArguments(chain[|chain| - 1])
    ensures ArgsOf(ids, chain) == ArgsOf(before, chain)
  {
  }

  /** The call is over: its caller's scope, with the aliases as the code left them. */
  lemma CallEnds(before: seq<Ident>, chain: seq<Frame>, numargs: nat, overriding: bool, a: nat, args: seq<Value>, depth: nat,
                 ran: Scope, ids: seq<Ident>)
    requires |before| == |ids| == IDENTS && |chain| > 0 && a < IDENTS && depth <= MAXRUNDEPTH
    requires ArgsSame(before, ids) && BindsArguments(chain[|chain| - 1]) && AliasesOf(ids) == ran.aliases
    requires var s := ScopeOf(before, chain, numargs, overriding); ran == Run(Body(a, args, s).ops, Entered(a, args, s), depth)
    ensures ScopeOf(ids, chain, numargs, overriding) == Called(a, args, ScopeOf(before, chain, numargs, overriding), depth)
  {
    hide AliasesOf, ArgsOf, Run, Body, Entered, ArgsSame, BindsArguments;
    ScopeLeft(before, chain, ids);
  }

  class Machine {
    const idents: array<Ident>
    // the chain of identlinks, the last one on top; the first is the frame outside of all calls
    var frames: seq<Frame>
    var numargs: nat
    var overriding: bool
    var rundepth: nat
    var codes: map<nat, Block>
    // the key of the next block
    var next: nat
    ghost var active: seq<nat>

    ghost predicate Valid()
      reads this, idents
    {
      Counted() && forall i :: 0 <= i < IDENTS ==> Cached(idents[i], codes)
    }

    ghost predicate Counted()
      reads this, idents
    {
      && idents.Length == IDENTS && |frames| > 0 && rundepth <= MAXRUNDEPTH
      && CodesOk(idents[..], codes, active, next) && active != []
      && forall k :: 0 <= k < |frames| ==> BindsArguments(frames[k])
    }

    /** What the code in the frame on top sees. */
    ghost function Now(): (s: Scope)
      requires |frames| > 0 && idents.Length == IDENTS
      reads this, idents
      ensures |s.aliases| == IDENTS
    {
      ScopeOf(idents[..], frames, numargs, overriding)
    }

    /** cleancode */
    method CleanCode(i: nat)
      requires Counted() && i < IDENTS && forall k :: 0 <= k < IDENTS && k != i ==> Cached(idents[k], codes)
      modifies this`codes, idents
      ensures Kept(old(codes), codes, active)
      ensures Valid() && idents[..] == old(idents[..])[i := old(idents[i]).(code := -1)]
    {
      hide CodesOk, Dropped;
      ghost var was, ids := codes, idents[..];
      var id := idents[i];
      CodesStay(idents[..], codes, active, next);
      if id.code >= 0 {
        LetsGo(idents[..], codes, active, next, i);
        DroppedSame(codes, id.code);
        forall k | 0 <= k < IDENTS && k != i ensures Cached(idents[k], Dropped(codes, id.code)) {
          StaysCached(idents[k], codes, id.code);
        }
        codes := Dropped(codes, id.code);
        idents[i] := id.(code := -1);
      } else {
        NoCode(idents[..], codes, active, next, i);
      }
      ActiveStay(idents[..], codes, active, next);
    }

    /** pusharg: what the identifier had goes into the slot of the frame at place d, which the caller keeps. */
    method PushArg(i: ArgIndex, v: Value, d: nat) returns (hidden: Value)
      requires Valid()
      modifies this`codes, idents
      ensures Kept(old(codes), codes, active)
      ensures Valid() && hidden == old(idents[i].val)
      ensures idents[..] == old(idents[..])[i := old(idents[i]).(val := v, stack := old(idents[i].stack) + [d], code := -1)]
    {
      hide CodesOk;
      hidden := idents[i].val;
      ghost var was := idents[..];
      idents[i] := idents[i].(val := v, stack := idents[i].stack + [d]);
      SameCodes(was, idents[..], codes, active, next);
      CleanCode(i);
    }

    /** poparg: the value on top of the stack comes back from the slot of the frame at place d. */
    method PopArg(i: ArgIndex, hidden: Value, ghost d: nat)
      requires Valid() && idents[i].stack != [] && idents[i].stack[|idents[i].stack| - 1] == d
      modifies this`codes, idents
      ensures Kept(old(codes), codes, active)
      ensures Valid()
      ensures idents[..] == old(idents[..])[i := old(idents[i]).(val := hidden, stack := old(idents[i].stack)[..|old(idents[i].stack)| - 1], code := -1)]
    {
      hide CodesOk;
      ghost var was := idents[..];
      idents[i] := idents[i].(val := hidden, stack := idents[i].stack[..|idents[i].stack| - 1]);
      SameCodes(was, idents[..], codes, active, next);
      CleanCode(i);
    }

    /** CODE_IDENTARG, CODE_IDENTU and writeident: an argument without a value gets an empty one. */
    method BindArg(i: ArgIndex, v: Value)
      requires Valid() && i !in frames[|frames| - 1].used
      modifies this`codes, this`frames, idents
      ensures Kept(old(codes), codes, active)
      ensures Valid() && InFrame(old(idents[..]), old(frames), idents[..], frames)
      ensures idents[..] == old(idents[..])[i := old(idents[i]).(val := v, stack := old(idents[i].stack) + [|frames| - 1], code := -1)]
      ensures frames == Binds(old(frames), i, old(idents[i].val))
    {
      hide CodesOk, Cached;
      var d := |frames| - 1;
      var hidden := PushArg(i, v, d);
      frames := frames[..d] + [Frame(frames[d].used + {i}, frames[d].slots[i := hidden])];
    }

    /** setarg */
    method SetArg(i: ArgIndex, v: Value)
      requires Valid()
      modifies this`codes, this`frames, idents
      ensures Kept(old(codes), codes, active)
      ensures Valid() && InFrame(old(idents[..]), old(frames), idents[..], frames)
      ensures var bound := i in old(frames)[|old(frames)| - 1].used;
        && frames == (if bound then old(frames) else Binds(old(frames), i, old(idents[i].val)))
        && idents[..] == old(idents[..])[i := old(idents[i]).(val := v, code := -1,
          stack := if bound then old(idents[i].stack) else old(idents[i].stack) + [|frames| - 1])]
    {
      hide CodesOk, Cached;
      if i in frames[|frames| - 1].used {
        ghost var was := idents[..];
        idents[i] := idents[i].(val := v);
        SameCodes(was, idents[..], codes, active, next);
        CleanCode(i);
      } else {
        BindArg(i, v);
      }
    }

    /** setalias of an identifier that is not an argument */
    method SetAlias(a: AliasIndex, v: Value)
      requires Valid()
      modifies this`codes, idents
      ensures Kept(old(codes), codes, active)
      ensures Valid() && InFrame(old(idents[..]), old(frames), idents[..], frames)
      ensures idents[..] == old(idents[..])[a := old(idents[a]).(val := v, code := -1, known := true, overridden := overriding)]
    {
      hide CodesOk;
      ghost var was := idents[..];
      idents[a] := idents[a].(val := v, known := true);
      SameCodes(was, idents[..], codes, active, next);
      CleanCode(a);
      ghost var mid := idents[..];
      idents[a] := idents[a].(overridden := overriding);
      SameCodes(mid, idents[..], codes, active, next);
    }

    /** One instruction, in the frame on top. */
    method Execute(op: Op)
      requires Valid() && rundepth > 0
      modifies this, idents
      ensures Valid() && Kept(old(codes), codes, active) && InFrame(old(idents[..]), old(frames), idents[..], frames)
      ensures active == old(active) && numargs == old(numargs) && overriding == old(overriding) && rundepth == old(rundepth)
      ensures match op
        case BindArg(i) => i in frames[|frames| - 1].used
        case SetArg(i, v) => i in frames[|frames| - 1].used && idents[i].val == v
        case SetAlias(a, v) => idents[a].val == v && idents[a].known && idents[a].overridden == overriding
        case Call(a, args) => old(idents[a].known) || idents[..] == old(idents[..])
        case CallArg(i, args) => i in old(frames)[|old(frames)| - 1].used || idents[..] == old(idents[..])
        case Nested(ops) => true
      ensures Now() == Step(op, old(Now()), rundepth)
      decreases MAXRUNDEPTH - rundepth, 2
    {
      hide CodesOk, InFrame, Cached, AliasesOf, Called, Run, Kept;
      InFrameNothing(idents[..], frames);
      CodesStay(idents[..], codes, active, next);
      ghost var ids, chain := idents[..], frames;
      match op {
        case BindArg(i) =>
          if i !in frames[|frames| - 1].used {
            BindArg(i, Value([]));
            ScopeBinds(ids, chain, i, Value([]), idents[..], frames);
          }
        case SetArg(i, v) =>
          SetArg(i, v);
          ScopeBinds(ids, chain, i, v, idents[..], frames);
        case SetAlias(a, v) =>
          SetAlias(a, v);
          ScopeSets(ids, chain, a, v, overriding, idents[..]);
        case Call(a, args) =>
          FlagsOf(ids, a);
          if idents[a].known {
            CallAlias(a, Passed(args));
            FrameSame(old(idents[..]), idents[..], frames);
          }
        case CallArg(i, args) =>
          if i in frames[|frames| - 1].used {
            CallAlias(i, Passed(args));
            FrameSame(old(idents[..]), idents[..], frames);
          }
        case Nested(ops) => RunCode(ops, active[|active| - 1]);
      }
    }

    /** CALLALIAS: the arguments are bound in a new frame, the alias runs, and whatever the frame bound is
        given back; the arguments and the chain are as they were, whatever the alias did. */
    method CallAlias(a: nat, args: seq<Value>)
      requires Valid() && a < IDENTS && |args| <= MAXARGS
      modifies this, idents
      ensures Valid() && Kept(old(codes), codes, active) && ArgsSame(old(idents[..]), idents[..]) && frames == old(frames)
      ensures active == old(active) && numargs == old(numargs) && overriding == old(overriding) && rundepth == old(rundepth)
      // an argument is called only if the frame on top has bound it
      ensures a >= MAXARGS || a in frames[|frames| - 1].used ==> Now() == Called(a, args, old(Now()), rundepth)
      decreases MAXRUNDEPTH - rundepth, 1
    {
      hide CodesOk, InFrame, Restorable, Kept, Pushed, ArgsSame, Interval, AliasesOf, ArgsOf, Run, Entered, Body, Called, Cached;
      ghost var before, chain, start := idents[..], frames, codes;
      var oldargs, oldflags, d := numargs, overriding, |frames|;
      var c := EnterFrame(a, args);
      ghost var pushed, slots, taken := idents[..], frames[d].slots, codes;
      BelowInterval(|args|);
      assert frames == chain + [Frame(Interval(0, |args|), slots)];
      RunCode(codes[c].ops, c);
      ghost var ran, left := codes, Now();
      ReturnsTo(before, chain, pushed, Interval(0, |args|), slots, |args|, idents[..], frames);
      LeaveFrame(c, |args|, oldargs, oldflags, before, d);
      KeptThrough(start, taken, ran, codes, active, c);
      if a >= MAXARGS || a in chain[d - 1].used {
        CallEnds(before, chain, oldargs, oldflags, a, args, rundepth, left, idents[..]);
      }
    }

    /** The beginning of CALLALIAS: the arguments are bound in a new frame, and the block is taken. */
    method EnterFrame(a: nat, args: seq<Value>) returns (c: nat)
      requires Valid() && a < IDENTS && |args| <= MAXARGS
      modifies this, idents
      ensures Valid() && Kept(old(codes), codes, old(active)) && active == old(active) + [c] && rundepth == old(rundepth)
      ensures |frames| == |old(frames)| + 1 && frames[..|old(frames)|] == old(frames)
      ensures var frame := frames[|old(frames)|];
        frame.used == Interval(0, |args|) && Pushed(old(idents[..]), idents[..], frame.slots, |args|, |old(frames)|)
      ensures Now() == Entered(a, args, old(Now())) && c in codes
      ensures a >= MAXARGS || a in old(frames)[|old(frames)| - 1].used ==> codes[c].ops == Body(a, args, old(Now())).ops
    {
      hide CodesOk, Kept, Pushed, Interval, AliasesOf, ScopeOf, Entered, Body, Cached;
      ghost var before, chain, start, flags, args0 := idents[..], frames, codes, overriding, numargs;
      var d := |frames|;
      var slots := PushArgs(args);
      numargs := |args|;
      FlagsOf(before, a);
      FlagsOf(idents[..], a);
      overriding := overriding || idents[a].overridden;
      BelowInterval(|args|);
      frames := frames + [Frame(Interval(0, |args|), slots)];
      ghost var pushed, taken := idents[..], codes;
      c := TakeCode(a);
      KeptTwice(start, taken, codes, old(active));
      SameAliases(pushed, idents[..]);
      ScopeEntered(before, chain, args0, flags, a, args, idents[..], slots, Interval(0, |args|));
      if a >= MAXARGS || a in chain[d - 1].used {
        BodyIs(before, chain, args0, flags, a, args, idents[..]);
      }
      PushedSame(before, pushed, idents[..], slots, |args|, d);
    }

    /** The end of CALLALIAS: the block, the chain, the flags and the arguments are given back. */
    method LeaveFrame(c: nat, newargs: nat, oldargs: nat, oldflags: bool, ghost before: seq<Ident>, ghost d: nat)
      requires Valid() && |active| > 1 && active[|active| - 1] == c && 0 < d && |frames| == d + 1 && newargs <= MAXARGS
      requires Restorable(before, idents[..], frames[d], d) && forall i: nat :: i < newargs ==> i in frames[d].used
      modifies this, idents
      ensures Valid() && Kept(old(codes), codes, active) && ArgsSame(before, idents[..]) && frames == old(frames)[..d]
      ensures active == old(active)[..|old(active)| - 1] && rundepth == old(rundepth)
      ensures numargs == oldargs && overriding == oldflags && AliasesOf(idents[..]) == AliasesOf(old(idents[..]))
    {
      hide CodesOk, Restorable, Kept, ArgsSame, AliasesOf;
      ghost var ran := codes;
      LeaveCode(c);
      var frame := frames[|frames| - 1];
      frames := frames[..|frames| - 1];
      overriding := oldflags;
      ghost var left := codes;
      PopArgs(frame, newargs, before, d);
      numargs := oldargs;
      KeptTwice(ran, left, codes, active);
    }

    method PushArgs(args: seq<Value>) returns (slots: map<nat, Value>)
      requires Valid() && |args| <= MAXARGS
      modifies this`codes, idents
      ensures Valid() && Kept(old(codes), codes, active) && Pushed(old(idents[..]), idents[..], slots, |args|, |frames|)
      ensures forall i :: MAXARGS <= i < IDENTS ==> idents[i] == old(idents[i])
      ensures forall i :: 0 <= i < |args| ==> idents[i].val == args[i]
      ensures forall i :: |args| <= i < IDENTS ==> idents[i].val == old(idents[i].val)
      ensures AliasesOf(idents[..]) == AliasesOf(old(idents[..]))
    {
      hide CodesOk, Kept, Cached, AliasesOf;
      ghost var before, start := idents[..], codes;
      CodesStay(idents[..], codes, active, next);
      slots := map[];
      for i := 0 to |args|
        invariant Valid() && Kept(start, codes, active) && Pushed(before, idents[..], slots, i, |frames|)
        invariant forall k :: MAXARGS <= k < IDENTS ==> idents[k] == before[k]
        invariant forall k :: 0 <= k < i ==> idents[k].val == args[k]
        invariant forall k :: i <= k < IDENTS ==> idents[k].val == before[k].val
        invariant AliasesOf(idents[..]) == AliasesOf(before)
      {
        ghost var was, ids := codes, idents[..];
        var hidden := PushArg(i, args[i], |frames|);
        SameAliases(ids, idents[..]);
        KeptTwice(start, was, codes, active);
        slots := slots[i := hidden];
      }
    }

    /** The alias is compiled if it has to be, and its block counts the call. */
    method TakeCode(a: nat) returns (c: nat)
      requires Valid() && a < IDENTS
      modifies this`codes, this`next, this`active, idents
      ensures Valid() && Kept(old(codes), codes, old(active)) && active == old(active) + [c]
      // the code is that of what the alias is now
      ensures c in codes && codes[c].ops == idents[a].val.ops
      ensures forall i :: 0 <= i < IDENTS ==> idents[i] == old(idents[i]).(code := idents[i].code)
    {
      hide CodesOk;
      CodesStay(idents[..], codes, active, next);
      if idents[a].code == -1 {
        Compiled(idents[..], codes, active, next, a, idents[a].val.ops);
        NextIsNew(idents[..], codes, active, next);
        AllCached(idents[..], codes, active, next, idents[a].val.ops);
        codes := codes[next := Block(1, idents[a].val.ops)];
        idents[a] := idents[a].(code := next);
        next := next + 1;
      }
      HasCode(idents[..], codes, active, next, a);
      c := idents[a].code;
      StartsRunning(idents[..], codes, active, next, c);
      codes := codes[c := codes[c].(refs := codes[c].refs + 1)];
      active := active + [c];
    }

    /** The call is over: its block is freed if nothing holds it any more. */
    method LeaveCode(c: nat)
      requires Valid() && |active| > 1 && active[|active| - 1] == c
      modifies this`codes, this`active
      ensures Valid() && Kept(old(codes), codes, active) && active == old(active)[..|old(active)| - 1]
    {
      hide CodesOk;
      ghost var rest := active[..|active| - 1];
      assert active == rest + [c];
      CodesStay(idents[..], codes, active, next);
      StopsRunning(idents[..], codes, rest, next, c);
      CodesStay(idents[..], Dropped(codes, c), rest, next);
      forall k | 0 <= k < IDENTS ensures Cached(idents[k], Dropped(codes, c)) {
        StaysCached(idents[k], codes, c);
      }
      codes := Dropped(codes, c);
      active := rest;
    }

    /** poparg of the arguments of the call, and then of those that the alias bound besides. */
    method PopArgs(frame: Frame, newargs: nat, ghost before: seq<Ident>, ghost d: nat)
      requires Valid() && newargs <= MAXARGS && (forall i: nat :: i < newargs ==> i in frame.used)
      requires (forall i :: i in frame.used ==> i < MAXARGS) && Restorable(before, idents[..], frame, d)
      modifies this`codes, idents
      ensures Valid() && Kept(old(codes), codes, active) && ArgsSame(before, idents[..])
      ensures AliasesOf(idents[..]) == AliasesOf(old(idents[..]))
    {
      hide CodesOk, Kept, PoppedOf, Restorable, Interval, ArgsSame, AliasesOf;
      ghost var aliases := AliasesOf(idents[..]);
      ghost var start, done: set<nat> := codes, {};
      CodesStay(idents[..], codes, active, next);
      NonePopped(before, idents[..], frame, d);
      for i := 0 to newargs
        invariant Valid() && Kept(start, codes, active) && PoppedOf(before, idents[..], frame, d, done)
        invariant AliasesOf(idents[..]) == aliases
        invariant forall k :: k in done <==> 0 <= k < i
      {
        PopOne(i, frame, before, d, done, start);
        done := done + {i};
      }
      var argmask, i := frame.used - Interval(0, newargs), newargs;
      BelowInterval(newargs);
      assert done == frame.used - argmask;
      while argmask != {}
        invariant Valid() && Kept(start, codes, active) && newargs <= i && AliasesOf(idents[..]) == aliases
        invariant argmask <= frame.used && forall k :: k in frame.used ==> (k in argmask <==> k >= i)
        invariant PoppedOf(before, idents[..], frame, d, frame.used - argmask)
        decreases MAXARGS - i
      {
        ghost var some :| some in argmask;
        if i in argmask {
          PopOne(i, frame, before, d, frame.used - argmask, start);
          assert frame.used - argmask + {i} == frame.used - (argmask - {i});
          argmask := argmask - {i};
        }
        i := i + 1;
      }
      AllPopped(before, idents[..], frame, d, frame.used - argmask);
    }

    method PopOne(i: nat, frame: Frame, ghost before: seq<Ident>, ghost d: nat, ghost done: set<nat>, ghost start: map<nat, Block>)
      requires Valid() && i < MAXARGS && i in frame.used && i !in done
      requires PoppedOf(before, idents[..], frame, d, done) && Kept(start, codes, active)
      modifies this`codes, idents
      ensures Valid() && PoppedOf(before, idents[..], frame, d, done + {i}) && Kept(start, codes, active)
      ensures AliasesOf(idents[..]) == AliasesOf(old(idents[..]))
    {
      hide CodesOk, Kept, AliasesOf;
      ghost var was := codes;
      assert CanRestore(before[i], idents[..][i], frame, i, d);
      PopArg(i, frame.slots[i], d);
      SameAliases(old(idents[..]), idents[..]);
      KeptTwice(start, was, codes, active);
    }

    /** runcode: the instructions of a piece of the block c, which is not freed while they run. */
    method RunCode(ops: seq<Op>, ghost c: nat)
      requires Valid() && c in active
      modifies this, idents
      ensures Valid() && Kept(old(codes), codes, active) && InFrame(old(idents[..]), old(frames), idents[..], frames)
      ensures active == old(active) && numargs == old(numargs) && overriding == old(overriding) && rundepth == old(rundepth)
      ensures Now() == Run(ops, old(Now()), rundepth)
      decreases MAXRUNDEPTH - rundepth, 0
    {
      hide CodesOk, InFrame, ScopeOf, Steps, Step, Cached;
      ghost var scope := Now();
      InFrameNothing(idents[..], frames);
      CodesStay(idents[..], codes, active, next);
      if rundepth >= MAXRUNDEPTH {
        return;
      }
      rundepth := rundepth + 1;
      ghost var start, depth := codes, rundepth;
      StepsNone(scope, depth);
      assert ops[..0] == [] && ops[..|ops|] == ops;
      for pc := 0 to |ops|
        invariant Valid() && Kept(start, codes, active) && InFrame(old(idents[..]), old(frames), idents[..], frames)
        invariant active == old(active) && numargs == old(numargs) && overriding == old(overriding) && rundepth == depth
        invariant Now() == Steps(ops[..pc], scope, depth)
      {
        assert c in codes && codes[c].ops == start[c].ops;
        ghost var ids, chain := idents[..], frames;
        Execute(ops[pc]);
        InFrameTwice(old(idents[..]), old(frames), ids, chain, idents[..], frames);
        StepsNext(ops, pc, scope, depth);
      }
      rundepth := rundepth - 1;
    }
  }

  lemma NoCode(ids: seq<Ident>, codes: map<nat, Block>, active: seq<nat>, next: nat, i: nat)
    requires CodesOk(ids, codes, active, next) && i < |ids| && ids[i].code < 0
    ensures ids[i].code == -1
  {
  }

  lemma ActiveStay(ids: seq<Ident>, codes: map<nat, Block>, active: seq<nat>, next: nat)
    requires CodesOk(ids, codes, active, next)
    ensures forall c :: c in active ==> c in codes
  {
  }
}
