/** What a piece of script means: its instructions one after another, on the arguments of the call that
    runs them and on the aliases that all calls share. There is no frame, no hidden value and no compiled
    code here. */
module AliasCalls {
  const MAXARGS: nat := 25
  const MAXRUNDEPTH: nat := 255
  // an instruction has 24 bits for an identifier
  const IDENTS: nat := 0x100_0000

  type ArgIndex = i: nat | i < MAXARGS
  type AliasIndex = i: nat | MAXARGS <= i < IDENTS witness MAXARGS

  /** A value, as the code that its text compiles to. */
  datatype Value = Value(ops: seq<Op>)

  /** The compiler passes no more than MAXARGS arguments to a call. */
  function Passed(args: seq<Value>): (r: seq<Value>)
    ensures |r| <= MAXARGS
  {
    if |args| <= MAXARGS then args else args[..MAXARGS]
  }

  /** What the instructions do that touch identifiers: binding an argument that has no value yet, setting
      an argument, setting an alias, calling an alias or an argument, and running a nested piece of code. */
  datatype Op =
    | BindArg(i: ArgIndex)
    | SetArg(i: ArgIndex, v: Value)
    | SetAlias(a: AliasIndex, v: Value)
    | Call(a: AliasIndex, args: seq<Value>)
    | CallArg(i: ArgIndex, args: seq<Value>)
    | Nested(ops: seq<Op>)

  datatype Alias = Alias(val: Value, known: bool, overridden: bool)

  /** What the code of one call sees: the arguments that are bound in it, and what all calls share. An
      argument has its value in args; as an alias it has none. */
  datatype Scope = Scope(args: map<ArgIndex, Value>, aliases: seq<Alias>, numargs: nat, overriding: bool)

  /** One instruction, with so many pieces of code running. */
  function Step(op: Op, s: Scope, depth: nat): (r: Scope)
    requires |s.aliases| == IDENTS && depth <= MAXRUNDEPTH
    ensures |r.aliases| == IDENTS
    decreases MAXRUNDEPTH - depth, 2, 0
  {
    match op
    case BindArg(i) => if i in s.args then s else s.(args := s.args[i := Value([])])
    case SetArg(i, v) => s.(args := s.args[i := v])
    case SetAlias(a, v) => s.(aliases := s.aliases[a := Alias(v, true, s.overriding)])
    case Call(a, args) => if s.aliases[a].known then Called(a, Passed(args), s, depth) else s
    case CallArg(i, args) => if i in s.args then Called(i, Passed(args), s, depth) else s
    case Nested(ops) => Run(ops, s, depth)
  }

  /** The instructions in order. */
  function Steps(ops: seq<Op>, s: Scope, depth: nat): (r: Scope)
    requires |s.aliases| == IDENTS && depth <= MAXRUNDEPTH
    ensures |r.aliases| == IDENTS
    decreases MAXRUNDEPTH - depth, 3, |ops|
  {
    if ops == [] then s else Step(ops[|ops| - 1], Steps(ops[..|ops| - 1], s, depth), depth)
  }

  /** A piece of code, unless there are too many running. */
  function Run(ops: seq<Op>, s: Scope, depth: nat): (r: Scope)
    requires |s.aliases| == IDENTS && depth <= MAXRUNDEPTH
    ensures |r.aliases| == IDENTS
    decreases MAXRUNDEPTH - depth, 0, 0
  {
    if depth < 255 then Steps(ops, s, depth + 1) else s
  }

  /** What runs: for an argument that the call itself binds, what it is bound to. */
  function Body(a: nat, args: seq<Value>, s: Scope): Value
    requires a < |s.aliases|
  {
    if a < |args| then args[a] else if a in s.args then s.args[a] else s.aliases[a].val
  }

  /** A call sees its own arguments, and of the caller's none. */
  function Entered(a: nat, args: seq<Value>, s: Scope): Scope
    requires a < |s.aliases|
  {
    Scope(map i: ArgIndex | i < |args| :: args[i], s.aliases, |args|, s.overriding || s.aliases[a].overridden)
  }

  /** The aliases stay as the call leaves them; all else is the caller's again. */
  function Called(a: nat, args: seq<Value>, s: Scope, depth: nat): (r: Scope)
    requires a < |s.aliases| == IDENTS && depth <= MAXRUNDEPTH
    ensures |r.aliases| == IDENTS
    decreases MAXRUNDEPTH - depth, 1, 0
  {
    s.(aliases := Run(Body(a, args, s).ops, Entered(a, args, s), depth).aliases)
  }

  lemma StepsNone(s: Scope, depth: nat)
    requires |s.aliases| == IDENTS && depth <= MAXRUNDEPTH
    ensures Steps([], s, depth) == s
  {
  }

  lemma StepsNext(ops: seq<Op>, pc: nat, s: Scope, depth: nat)
    requires |s.aliases| == IDENTS && depth <= MAXRUNDEPTH && pc < |ops|
    ensures Steps(ops[..pc + 1], s, depth) == Step(ops[pc], Steps(ops[..pc], s, depth), depth)
  {
    assert ops[..pc + 1][..pc] == ops[..pc];
  }

  // ---- what follows from this

  /** Code that is cut in two runs as its first half and then its second. */
  lemma {:induction false} InOrder(a: seq<Op>, b: seq<Op>, s: Scope, depth: nat)
    requires |s.aliases| == 0x100_0000 && depth <= 255
    ensures Steps(a + b, s, depth) == Steps(b, Steps(a, s, depth), depth)
    decreases |b|
  {
    hide Step;
    if b == [] {
      assert a + b == a;
    } else {
      InOrder(a, b[..|b| - 1], s, depth);
      assert (a + b)[..|a + b| - 1] == a + b[..|b| - 1];
    }
  }

  lemma OneStep(op: Op, s: Scope, depth: nat)
    requires |s.aliases| == 0x100_0000 && depth <= 255
    ensures Steps([op], s, depth) == Step(op, s, depth)
  {
    hide Step;
    assert [op][..0] == [];
  }

  lemma TwoSteps(op: Op, next: Op, s: Scope, depth: nat)
    requires |s.aliases| == 0x100_0000 && depth <= 255
    ensures Steps([op, next], s, depth) == Step(next, Step(op, s, depth), depth)
  {
    hide Step;
    InOrder([op], [next], s, depth);
    assert [op] + [next] == [op, next];
    OneStep(op, s, depth);
    OneStep(next, Step(op, s, depth), depth);
  }

  /** An alias f that sets x and then y: both are set, the second one last, with the flag of an alias that
      is overridden. From the 255th call on nothing runs. */
  lemma SetsInOrder(f: AliasIndex, x: AliasIndex, v: Value, y: AliasIndex, w: Value, args: seq<Value>, s: Scope, depth: nat)
    requires |s.aliases| == 0x100_0000 && depth <= 255 && s.aliases[f].known
    requires s.aliases[f].val == Value([SetAlias(x, v), SetAlias(y, w)])
    ensures var flag := s.overriding || s.aliases[f].overridden;
      Step(Call(f, args), s, depth) ==
        if depth < 255 then s.(aliases := s.aliases[x := Alias(v, true, flag)][y := Alias(w, true, flag)]) else s
  {
    hide Step, Steps, Run, Entered, Body, Passed, Called;
    var inner := Entered(f, Passed(args), s);
    CallIs(f, args, s, depth);
    EnteredIs(f, Passed(args), s);
    RunIs(Value([SetAlias(x, v), SetAlias(y, w)]).ops, inner, depth);
    if depth < 255 {
      TwoSteps(SetAlias(x, v), SetAlias(y, w), inner, depth + 1);
      SetIs(x, v, inner, depth + 1);
      SetIs(y, w, Step(SetAlias(x, v), inner, depth + 1), depth + 1);
    }
  }

  /** An alias that redefines itself: the rest of its code runs as it was. */
  lemma RedefinedWhileRunning(f: AliasIndex, v: Value, y: AliasIndex, w: Value, s: Scope, depth: nat)
    requires |s.aliases| == 0x100_0000 && depth < 255 && s.aliases[f].known && f != y
    requires s.aliases[f].val == Value([SetAlias(f, v), SetAlias(y, w)])
    ensures var r := Step(Call(f, []), s, depth); r.aliases[f].val == v && r.aliases[y].val == w
  {
    SetsInOrder(f, f, v, y, w, [], s, depth);
  }

  /** An alias f whose code calls argument i: what the call was given there runs, in a call of its own. */
  lemma ArgumentRuns(f: AliasIndex, i: ArgIndex, x: AliasIndex, v: Value, args: seq<Value>, s: Scope, depth: nat)
    requires |s.aliases| == 0x100_0000 && depth <= 255 && s.aliases[f].known && s.aliases[f].val == Value([CallArg(i, [])])
    requires i < |args| ==> args[i] == Value([SetAlias(x, v)])
    requires !s.overriding && !s.aliases[f].overridden && !s.aliases[i].overridden
    ensures Step(Call(f, args), s, depth) ==
      if i < |args| && depth < 254 then s.(aliases := s.aliases[x := Alias(v, true, false)]) else s
  {
    hide Step, Steps, Run, Entered, Body, Passed, Called;
    CallIs(f, args, s, depth);
    var inner := Entered(f, Passed(args), s);
    EnteredIs(f, Passed(args), s);
    PassedFirst(args);
    RunIs(Value([CallArg(i, [])]).ops, inner, depth);
    if depth < 255 {
      OneStep(CallArg(i, []), inner, depth + 1);
      ArgumentCall(i, [], inner, depth + 1);
      if i < |args| && depth == 254 {
        PassedFirst([]);
        EnteredIs(i, [], inner);
        RunIs(Value([SetAlias(x, v)]).ops, Entered(i, [], inner), depth + 1);
      } else if i < |args| {
        var last := Entered(i, [], inner);
        PassedFirst([]);
        EnteredIs(i, [], inner);
        RunIs(Value([SetAlias(x, v)]).ops, last, depth + 1);
        OneStep(SetAlias(x, v), last, depth + 2);
        SetIs(x, v, last, depth + 2);
      }
    }
  }

  lemma RunIs(ops: seq<Op>, s: Scope, depth: nat)
    requires |s.aliases| == 0x100_0000 && depth <= 255
    ensures Run(ops, s, depth) == if depth < 255 then Steps(ops, s, depth + 1) else s
  {
    hide Steps;
  }

  /** No more than 25 arguments are passed. */
  lemma PassedFirst(args: seq<Value>)
    ensures |Passed(args)| == (if |args| <= 25 then |args| else 25) && Passed(args) <= args
  {
  }

  lemma CallIs(f: AliasIndex, args: seq<Value>, s: Scope, depth: nat)
    requires |s.aliases| == 0x100_0000 && depth <= 255 && s.aliases[f].known
    ensures Step(Call(f, args), s, depth)
      == s.(aliases := Run(s.aliases[f].val.ops, Entered(f, Passed(args), s), depth).aliases)
  {
    hide Run, Entered;
  }

  lemma UnknownIs(f: AliasIndex, args: seq<Value>, s: Scope, depth: nat)
    requires |s.aliases| == 0x100_0000 && depth <= 255 && !s.aliases[f].known
    ensures Step(Call(f, args), s, depth) == s
  {
  }

  /** An argument that the call itself binds is bound before the call looks what to run. */
  lemma ArgumentCall(i: ArgIndex, args: seq<Value>, s: Scope, depth: nat)
    requires |s.aliases| == 0x100_0000 && depth <= 255
    ensures Step(CallArg(i, args), s, depth) == if i !in s.args then s
      else s.(aliases := Run((if i < |args| then args[i] else s.args[i]).ops, Entered(i, Passed(args), s), depth).aliases)
  {
    hide Run, Entered;
  }

  lemma EnteredIs(a: nat, args: seq<Value>, s: Scope)
    requires a < |s.aliases|
    ensures var r := Entered(a, args, s);
      && r.aliases == s.aliases && r.numargs == |args| && r.overriding == (s.overriding || s.aliases[a].overridden)
      && (forall i: ArgIndex :: i in r.args <==> i < |args|) && forall i: ArgIndex :: i < |args| ==> r.args[i] == args[i]
  {
  }

  lemma SetIs(x: AliasIndex, v: Value, s: Scope, depth: nat)
    requires |s.aliases| == 0x100_0000 && depth <= 255
    ensures Step(SetAlias(x, v), s, depth) == s.(aliases := s.aliases[x := Alias(v, true, s.overriding)])
  {
  }

  /** An alias that does nothing but call itself ends, and leaves all as it was. */
  lemma {:induction false} Endless(f: AliasIndex, s: Scope, depth: nat)
    requires |s.aliases| == 0x100_0000 && depth <= 255 && s.aliases[f].val == Value([Call(f, [])])
    ensures Step(Call(f, []), s, depth) == s
    decreases 255 - depth
  {
    hide Step, Steps, Run, Entered, Body, Passed, Called;
    if s.aliases[f].known {
      var inner := Entered(f, [], s);
      PassedFirst([]);
      CallIs(f, [], s, depth);
      EnteredIs(f, [], s);
      RunIs(Value([Call(f, [])]).ops, inner, depth);
      if depth < 255 {
        OneStep(Call(f, []), inner, depth + 1);
        Endless(f, inner, depth + 1);
      }
    } else {
      UnknownIs(f, [], s, depth);
    }
  }
}
