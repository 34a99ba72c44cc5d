/** From source to x86-64: the lowering, the prologue that fetches the arguments, and the code
    generator with pending pushes. */
module NativeFuncs {
  import opened Ir
  import opened Shape
  import opened Ast
  import opened Lower
  import opened LowerCorrect
  import opened LowerFuncs
  import opened Eager
  import opened Pending
  import opened PendingInsts
  import opened PendingRuns
  import Literals
  import LowerStmts
  import Native
  import Searches
  import StackifyCorrect

  /** The labels that the jumps of a piece of code name. */
  function JumpTargets(code: seq<Inst>): set<int> {
    if code == [] then {}
    else (if IsJump(code[0]) then {code[0].l} else {}) + JumpTargets(code[1..])
  }

  lemma {:induction false} TargetsAppend(a: seq<Inst>, b: seq<Inst>)
    ensures JumpTargets(a + b) == JumpTargets(a) + JumpTargets(b)
  {
    if a == [] {
      assert a + b == b;
    } else {
      assert (a + b)[0] == a[0] && (a + b)[1..] == a[1..] + b;
      TargetsAppend(a[1..], b);
    }
  }

  lemma {:induction false} HasTarget(s: seq<Inst>, i: nat)
    requires i < |s| && IsJump(s[i])
    ensures s[i].l in JumpTargets(s)
  {
    if i > 0 {
      HasTarget(s[1..], i - 1);
    }
  }

  function LoopLabels(loop: LoopOf): set<int> {
    if loop.Some? then {loop.value.0, loop.value.1} else {}
  }

  /** Every jump of a level names a label defined in it, or one of the loop around it. */
  lemma {:induction false} JumpsDefined(items: seq<Item>, loop: LoopOf)
    requires LevelOK(items, loop)
    ensures JumpTargets(Flatten(items)) <= CodeLabels(Flatten(items)) + LoopLabels(loop)
    decreases items, 1
  {
    if items != [] {
      var it, rest := items[0], items[1..];
      assert Flatten(items) == FlatItem(it) + Flatten(rest);
      Searches.LabelsAppend(FlatItem(it), Flatten(rest));
      TargetsAppend(FlatItem(it), Flatten(rest));
      JumpsDefinedItem(it, rest, loop);
      JumpsDefined(rest, loop);
    }
  }

  lemma {:induction false} JumpsDefinedItem(it: Item, rest: seq<Item>, loop: LoopOf)
    requires ItemOK(it, rest, loop)
    ensures JumpTargets(FlatItem(it)) <= CodeLabels(FlatItem(it)) + CodeLabels(Flatten(rest)) + LoopLabels(loop)
    decreases it, 0
  {
    Searches.TopInCode(rest);
    match it
    case Loop(h, b, body) =>
      Searches.LabelsAppend([Label(h)] + Flatten(body), [Label(b)]);
      Searches.LabelsAppend([Label(h)], Flatten(body));
      TargetsAppend([Label(h)] + Flatten(body), [Label(b)]);
      TargetsAppend([Label(h)], Flatten(body));
      JumpsDefined(body, Some((h, b)));
    case Short(_, _, _, _, rhs) =>
      JumpsDefinedShort(it);
    case _ =>
  }

  lemma {:induction false} JumpsDefinedShort(it: Item)
    requires it.Short? && RhsOK(it.rhs)
    ensures JumpTargets(FlatItem(it)) <= CodeLabels(FlatItem(it))
    decreases it, 0
  {
    var h := [if it.onTrue then JmpIf(it.tgt) else JmpIfNot(it.tgt)];
    var b := [Jmp(it.end), Label(it.tgt), ConstBool(it.k), Label(it.end)];
    Searches.ShortLabelsIn(it);
    TargetsAppend(h + Flatten(it.rhs), b);
    TargetsAppend(h, Flatten(it.rhs));
    JumpsDefinedRhs(it.rhs);
    assert b[1..] == [Label(it.tgt), ConstBool(it.k), Label(it.end)];
    assert b[1..][1..] == [ConstBool(it.k), Label(it.end)];
    assert b[1..][1..][1..] == [Label(it.end)];
    assert JumpTargets(b) == {it.end} + JumpTargets(b[1..]);
    assert JumpTargets(b[1..]) == JumpTargets(b[1..][1..]) == JumpTargets(b[1..][1..][1..]) == {};
  }

  lemma {:induction false} JumpsDefinedRhs(items: seq<Item>)
    requires RhsOK(items)
    ensures JumpTargets(Flatten(items)) <= CodeLabels(Flatten(items))
    decreases items, 1
  {
    if items != [] {
      var it, rest := items[0], items[1..];
      assert Flatten(items) == FlatItem(it) + Flatten(rest);
      Searches.LabelsAppend(FlatItem(it), Flatten(rest));
      TargetsAppend(FlatItem(it), Flatten(rest));
      assert RhsItemOK(it);
      if it.Short? {
        JumpsDefinedShort(it);
      }
      JumpsDefinedRhs(rest);
    }
  }

  /** What the lowering guarantees of a function's code. */
  ghost predicate ProperIr(code: seq<Inst>) {
    && DistinctLabels(code) && ConstsBelow(code, TWO64 / 2) && EndsInReturn(code)
    && (forall i :: 0 <= i < |code| && IsJump(code[i]) ==> Label(code[i].l) in code)
  }

  lemma LoweringIsProper(f: Func, l: nat)
    requires Accepted(f) && Literals.LitsFit(Native64, f)
    ensures ProperIr(Flatten(ItemsOf(f, l)))
  {
    hide Flatten, LowerBlock, Accepted;
    var items, code := ItemsOf(f, l), Flatten(ItemsOf(f, l));
    LoweringIsGood(f, l);
    JumpsDefined(items, None);
    Literals.CodeConsts(Native64, f, l);
    forall i | 0 <= i < |code| && IsJump(code[i])
      ensures Label(code[i].l) in code
    {
      HasTarget(code, i);
      var j := Searches.FindCodeLabel(code, code[i].l);
    }
    EndsReturning(f, l);
  }

  // ----- prologue and body -----

  /** Prologue and body, as the code generator takes them. */
  function Whole(k: nat, code: seq<Inst>): seq<Op> {
    Prologue(k) + Lift(code)
  }

  function NativeOps(f: Func, l: nat): seq<Op> {
    Whole(|f.params|, Flatten(ItemsOf(f, l)))
  }

  /** The code of every accepted function, prologue included, is proper input for the code
      generator. */
  lemma WholeIsProper(k: nat, code: seq<Inst>)
    requires ProperIr(code)
    ensures Proper(Whole(k, code))
  {
    var all := Whole(k, code);
    forall i, j | 0 <= i < j < |all| && all[i].Basic? && all[i].i.Label?
      ensures all[j] != all[i]
    {
      assert all[i] == Basic(code[i - k]) && all[j] == Basic(code[j - k]);
    }
    forall i | 0 <= i < |all| && Jumps(all[i])
      ensures Basic(Label(all[i].i.l)) in all
    {
      assert all[i] == Basic(code[i - k]);
      var j :| 0 <= j < |code| && code[j] == Label(code[i - k].l);
      assert all[k + j] == Basic(code[j]);
    }
    forall i | 0 <= i < |all|
      ensures Encodable(all[i])
    {
      if i >= k {
        assert all[i] == Basic(code[i - k]);
      }
    }
  }

  /** A label of the body stands behind the prologue. */
  lemma {:induction false} LabelShifts(k: nat, code: seq<Inst>, l: int)
    requires Label(l) in code
    ensures OpLabelPos(Whole(k, code), l) == k + LabelPos(code, l)
    decreases |code|
  {
    hide Whole;
    var n := |code| - 1;
    WholeSnoc(k, code);
    if code[n] != Label(l) {
      LabelShifts(k, code[..n], l);
    }
  }

  lemma WholeSnoc(k: nat, code: seq<Inst>)
    requires code != []
    ensures var n, all := |code| - 1, Whole(k, code);
      |all| == k + n + 1 && all[k + n] == Basic(code[n]) && all[..k + n] == Whole(k, code[..n])
  {
    hide Prologue, Lift;
  }

  /** A configuration of the body alone, with a caller's values below its stack. */
  function Under(k: nat, below: seq<int>, mem: Mem, c: Conf): XConf {
    match c
    case Running(pc, s) => Going(k + pc, XState(below + s.stack, s.locals, mem))
    case Done(r) => Ended(below + r, mem)
    case Crashed => Faulted
  }

  lemma ApplyUnder(i: Inst, s: State, below: seq<int>)
    requires CanRun(i, s)
    ensures CanRun(i, State(below + s.stack, s.locals))
    ensures Apply(Native64, i, State(below + s.stack, s.locals))
         == State(below + Apply(Native64, i, s).stack, Apply(Native64, i, s).locals)
  {
    hide BinVal, NegVal, NotVal;
    if i.Bin? {
      BinUnder(i, s, below);
    } else if Ir.Pops(i) == 1 {
      TopUnder(i, s, below);
    } else {
      PushUnder(i, s, below);
    }
  }

  lemma BinUnder(i: Inst, s: State, below: seq<int>)
    requires i.Bin? && CanRun(i, s)
    ensures CanRun(i, State(below + s.stack, s.locals))
    ensures Apply(Native64, i, State(below + s.stack, s.locals))
         == State(below + Apply(Native64, i, s).stack, Apply(Native64, i, s).locals)
  {
    hide BinVal;
    var all, n := below + s.stack, |s.stack|;
    assert all[|all| - 1] == s.stack[n - 1] && all[|all| - 2] == s.stack[n - 2];
    Over(below, s.stack, 2, BinVal(Native64, i.op, s.stack[n - 2], s.stack[n - 1]));
  }

  lemma TopUnder(i: Inst, s: State, below: seq<int>)
    requires Ir.Pops(i) == 1 && CanRun(i, s)
    ensures CanRun(i, State(below + s.stack, s.locals))
    ensures Apply(Native64, i, State(below + s.stack, s.locals))
         == State(below + Apply(Native64, i, s).stack, Apply(Native64, i, s).locals)
  {
    hide NegVal, NotVal, Mask;
    var all, n := below + s.stack, |s.stack|;
    var x := s.stack[n - 1];
    assert all[|all| - 1] == x;
    Over(below, s.stack, 1, NegVal(Native64, x));
    Over(below, s.stack, 1, NotVal(Native64, x));
    Over(below, s.stack, 0, x);
  }

  lemma PushUnder(i: Inst, s: State, below: seq<int>)
    requires Ir.Pops(i) == 0 && CanRun(i, s)
    ensures CanRun(i, State(below + s.stack, s.locals))
    ensures Apply(Native64, i, State(below + s.stack, s.locals))
         == State(below + Apply(Native64, i, s).stack, Apply(Native64, i, s).locals)
  {
  }

  /** Taking k values off and putting x on does not reach what is below. */
  lemma Over(below: seq<int>, stack: seq<int>, k: nat, x: int)
    requires k <= |stack|
    ensures var all := below + stack;
      && all[..|all| - k] == below + stack[..|stack| - k]
      && all[..|all| - k] + [x] == below + (stack[..|stack| - k] + [x])
  {
  }

  lemma StepUnder(w: World, k: nat, code: seq<Inst>, below: seq<int>, mem: Mem, c: Conf)
    requires ProperIr(code) && Step(Native64, code, c) != Crashed
    ensures XStep(w, Whole(k, code), Under(k, below, mem, c)) == Under(k, below, mem, Step(Native64, code, c))
  {
    hide Apply, CanRun, LabelPos, OpLabelPos;
    var all := Whole(k, code);
    if c.Running? && c.pc < |code| {
      var i, n := code[c.pc], |c.s.stack|;
      assert all[k + c.pc] == Basic(i);
      if n >= 1 {
        assert (below + c.s.stack)[..|below| + n - 1] == below + c.s.stack[..n - 1];
      }
      if IsJump(i) {
        LabelShifts(k, code, i.l);
      }
      if !IsControl(i) {
        ApplyUnder(i, c.s, below);
      }
    }
  }

  lemma {:induction false} RunUnder(w: World, k: nat, code: seq<Inst>, below: seq<int>, mem: Mem, c: Conf, n: nat)
    requires ProperIr(code) && Run(Native64, code, c, n) != Crashed
    ensures XRun(w, Whole(k, code), Under(k, below, mem, c), n) == Under(k, below, mem, Run(Native64, code, c, n))
    decreases n
  {
    hide ProperIr, Step, XStep, Whole, Under;
    if n > 0 {
      var d := Step(Native64, code, c);
      if d == Crashed {
        RunHalted(Native64, code, d, n - 1);
      }
      StepUnder(w, k, code, below, mem, c);
      RunUnder(w, k, code, below, mem, d, n - 1);
    }
  }

  /** After the prologue has fetched all parameters but the first i. */
  function Fetched(i: nat, below: seq<int>, args: seq<int>, locals: seq<int>, mem: Mem): XState
    requires i <= |args| <= |locals|
  {
    XState(below + args[..i], locals[..i] + args[i..] + locals[|args|..], mem)
  }

  lemma PrologueAt(k: nat, code: seq<Inst>, j: nat)
    requires j < k
    ensures j < |Whole(k, code)| && Whole(k, code)[j] == Basic(LocalSet(k - 1 - j))
  {
  }

  /** The prologue takes the arguments from the caller's stack into the first slots. */
  lemma {:induction false} ParamsArrive(w: World, k: nat, code: seq<Inst>, j: nat, below: seq<int>, args: seq<int>,
        locals: seq<int>, mem: Mem)
    requires j <= k == |args| <= |locals| && AreWords(args)
    ensures XRun(w, Whole(k, code), Going(0, XState(below + args, locals, mem)), j)
         == Going(j, Fetched(k - j, below, args, locals, mem))
    decreases j
  {
    hide XStep, Whole;
    var c := Going(0, XState(below + args, locals, mem));
    if j == 0 {
      assert args[..k] == args && locals[..k] + args[k..] + locals[k..] == locals;
    } else {
      ParamsArrive(w, k, code, j - 1, below, args, locals, mem);
      hide Fetched, XRun;
      XRunAdd(w, Whole(k, code), c, j - 1, 1);
      PrologueAt(k, code, j - 1);
      RunOne(w, Whole(k, code), Going(j - 1, Fetched(k - j + 1, below, args, locals, mem)));
      ParamStored(w, Whole(k, code), j - 1, k - j, below, args, locals, mem);
    }
  }

  lemma ParamStored(w: World, code: seq<Op>, pc: nat, i: nat, below: seq<int>, args: seq<int>, locals: seq<int>,
        mem: Mem)
    requires i < |args| <= |locals| && AreWords(args) && pc < |code| && code[pc] == Basic(LocalSet(i))
    ensures XStep(w, code, Going(pc, Fetched(i + 1, below, args, locals, mem)))
         == Going(pc + 1, Fetched(i, below, args, locals, mem))
  {
    var k := |args|;
    var st, ls := below + args[..i + 1], locals[..i + 1] + args[i + 1..] + locals[k..];
    assert st[..|st| - 1] == below + args[..i] && st[|st| - 1] == args[i] && args[i] % TWO64 == args[i];
    assert ls[i := args[i]] == locals[..i] + args[i..] + locals[k..];
  }

  // ----- meaning -----

  /** A run of a safe function never crashes. */
  lemma NeverCrashes(m: Machine, f: Func, l: nat, args: seq<Value>, locals: seq<int>, n: nat)
    requires Accepted(f) && |args| == |f.params| && Passed(m, args, locals) && |locals| == SlotsOf(f, l)
    requires Safe(m, f, args)
    ensures Run(m, Flatten(ItemsOf(f, l)), LowerStmts.Start(0, locals), n) != Crashed
  {
    hide Run, Call, ItemsOf, Flatten, SlotsOf, Accepted;
    var code, c := Flatten(ItemsOf(f, l)), LowerStmts.Start(0, locals);
    CallSim(m, f, l, args, locals, n);
    var o := Call(m, f, args, n);
    if o.Returned? && Run(m, code, c, n) == Crashed {
      var k: nat :| Run(m, code, c, k) == Done(EncAll(m, o.vs));
      ResultUnique(m, code, c, n, k);
    }
  }

  lemma {:induction false} EncWords(args: seq<Value>)
    requires forall i :: 0 <= i < |args| ==> Fits(Native64, args[i])
    ensures AreWords(EncAll(Native64, args)) && |EncAll(Native64, args)| == |args|
  {
    if args != [] {
      EncWords(args[1..]);
    }
  }

  /** The body never crashes. */
  ghost predicate Sane(code: seq<Inst>, locals: seq<int>) {
    forall n: nat :: Run(Native64, code, LowerStmts.Start(0, locals), n) != Crashed
  }

  /** The machine that pushes at once, prologue included: it returns r on top of whatever the
      caller had on the stack, exactly when the body alone returns r. */
  lemma WholeComputes(w: World, code: seq<Inst>, enc: seq<int>, below: seq<int>, locals: seq<int>, mem: Mem, r: seq<int>)
    requires ProperIr(code) && |enc| <= |locals| && AreWords(enc) && Sane(code, enc + locals[|enc|..])
    ensures EagerStops(w, Whole(|enc|, code), XState(below + enc, locals, mem), Ended(below + r, mem))
       <==> Computes(Native64, code, enc + locals[|enc|..], r)
  {
    hide Run, XRun, ProperIr, Whole;
    var k, all := |enc|, Whole(|enc|, code);
    var c := Going(0, XState(below + enc, locals, mem));
    ParamsArrive(w, k, code, k, below, enc, locals, mem);
    var ls := enc + locals[k..];
    assert enc[..0] == [] && locals[..0] + enc[0..] + locals[k..] == ls && below + [] == below;
    var d := LowerStmts.Start(0, ls);
    assert XRun(w, all, c, k) == Under(k, below, mem, d);
    if n: nat :| XRun(w, all, c, n) == Ended(below + r, mem) {
      if n < k {
        XRunAdd(w, all, c, n, k - n);
        XRunHalted(w, all, Ended(below + r, mem), k - n);
      }
      XRunAdd(w, all, c, k, n - k);
      RunUnder(w, k, code, below, mem, d, n - k);
      var e := Run(Native64, code, d, n - k);
      assert e.Done? && below + e.result == below + r;
      assert e.result == (below + r)[|below|..] == r;
      assert Run(Native64, code, LowerStmts.Start(0, ls), n - k) == Done(r);
    }
    if n: nat :| Run(Native64, code, LowerStmts.Start(0, ls), n) == Done(r) {
      RunUnder(w, k, code, below, mem, d, n);
      XRunAdd(w, all, c, k, n);
      assert XRun(w, all, c, k + n) == Ended(below + r, mem);
    }
  }

  /** The same for the native code, whatever registers and flags hold. */
  lemma NativeComputes(w: World, code: seq<Inst>, enc: seq<int>, below: seq<int>, n: Native.NState, r: seq<int>)
    requires ProperIr(code) && |enc| <= |n.locals| && AreWords(enc) && Sane(code, enc + n.locals[|enc|..])
    requires n.stack == below + enc && n.saved == [] && AreWords(below) && AreWords(n.locals)
    ensures LazyStops(w, Whole(|enc|, code), n, Native.NDone(below + r, n.mem))
       <==> Computes(Native64, code, enc + n.locals[|enc|..], r)
  {
    hide Run, Native.NRun, XRun, ProperIr, Gen, Whole, Proper, Sane;
    var s := XState(below + enc, n.locals, n.mem);
    WholeIsProper(|enc|, code);
    assert n.stack + [] == n.stack;
    PendingPreserves(w, Whole(|enc|, code), s, n, below + r, n.mem);
    WholeComputes(w, code, enc, below, n.locals, n.mem, r);
  }

  /** A call of the native code, prologue included: with the arguments on the caller's operand
      stack it ends with the words r in their place exactly when direct evaluation with 64-bit
      ints returns r - whatever the registers, the flags and the frame hold. */
  lemma NativePreserves(w: World, f: Func, l: nat, args: seq<Value>, below: seq<int>, n: Native.NState, r: seq<int>)
    requires Accepted(f) && Literals.LitsFit(Native64, f) && |args| == |f.params| && Safe(Native64, f, args)
    requires forall i :: 0 <= i < |args| ==> Fits(Native64, args[i])
    requires n.stack == below + EncAll(Native64, args) && n.saved == [] && |n.locals| == SlotsOf(f, l)
    requires AreWords(below) && AreWords(n.locals)
    ensures Evaluates(Native64, f, args, r) <==> LazyStops(w, NativeOps(f, l), n, Native.NDone(below + r, n.mem))
  {
    hide Flatten, ItemsOf, SlotsOf, Accepted, Literals.LitsFit, Safe, Run, ProperIr, Whole, Fits, Computes, LazyStops;
    var code, enc := Flatten(ItemsOf(f, l)), EncAll(Native64, args);
    EncWords(args);
    EnoughSlots(f, l);
    LoweringIsProper(f, l);
    var ls := enc + n.locals[|args|..];
    assert ls[..|args|] == enc;
    forall k: nat
      ensures Run(Native64, code, LowerStmts.Start(0, ls), k) != Crashed
    {
      NeverCrashes(Native64, f, l, args, ls, k);
    }
    NativeComputes(w, code, enc, below, n, r);
    LoweringPreserves(Native64, f, l, args, ls, r);
  }

  lemma EnoughSlots(f: Func, l: nat)
    requires Accepted(f)
    ensures SlotsOf(f, l) >= |f.params|
  {
    BodyHere(f, l);
  }
}
