/** Functions with a switch as x86-64 code. */
module SwitchNative {
  import opened Ir
  import opened Shape
  import opened Ast
  import opened LowerCorrect
  import opened Switches
  import opened SwitchFuncs
  import opened Eager
  import opened Pending
  import LowerFuncs
  import LowerStmts
  import Native
  import NativeFuncs
  import PendingRuns
  import Searches

  function NativeOps(f: SwitchFunc, l: nat): seq<Op> {
    NativeFuncs.Whole(|f.params|, Flatten(ItemsOf(f, l)))
  }

  lemma SwitchIsProper(f: SwitchFunc, l: nat)
    requires Accepted(f) && LitsFit(Native64, f)
    ensures NativeFuncs.ProperIr(Flatten(ItemsOf(f, l)))
  {
    hide Flatten, ItemsOf, Accepted, LitsFit;
    var items, code := ItemsOf(f, l), Flatten(ItemsOf(f, l));
    WholeLevel(f, l);
    WholeSound(f, l);
    NativeFuncs.JumpsDefined(items, None);
    CodeConsts(Native64, f, l);
    forall i | 0 <= i < |code| && IsJump(code[i])
      ensures Label(code[i].l) in code
    {
      NativeFuncs.HasTarget(code, i);
      var j := Searches.FindCodeLabel(code, code[i].l);
    }
    EndsReturning(f, l);
  }

  /** A run of a safe call never crashes. */
  lemma NeverCrashes(m: Machine, f: SwitchFunc, l: nat, args: seq<Value>, locals: seq<int>, n: nat)
    requires Accepted(f) && |args| == |f.params| && LowerFuncs.Passed(m, args, locals) && |locals| == SlotsOf(f, l)
    requires Safe(m, f, args)
    ensures Run(m, Flatten(ItemsOf(f, l)), LowerStmts.Start(0, locals), n) != Crashed
  {
    hide Run, SwitchFuncs.Call, ItemsOf, Flatten, SlotsOf, Accepted;
    var code, c := Flatten(ItemsOf(f, l)), LowerStmts.Start(0, locals);
    CallSim(m, f, l, args, locals, n);
    var o := SwitchFuncs.Call(m, f, args, n);
    if o.Returned? && Run(m, code, c, n) == Crashed {
      var k: nat :| Run(m, code, c, k) == Done(EncAll(m, o.vs));
      ResultUnique(m, code, c, n, k);
    }
  }

  /** A call of the native code of a function with a switch: at every label of the dispatch the
      tag is on the stack in memory, nothing pending, and the arguments give way to r exactly
      when the call returns r. */
  lemma SwitchNativePreserves(w: World, f: SwitchFunc, l: nat, args: seq<Value>, below: seq<int>, n: Native.NState,
                              r: seq<int>)
    requires Accepted(f) && LitsFit(Native64, f) && |args| == |f.params| && Safe(Native64, f, args)
    requires forall i :: 0 <= i < |args| ==> Fits(Native64, args[i])
    requires n.stack == below + EncAll(Native64, args) && n.saved == [] && |n.locals| == SlotsOf(f, l)
    requires AreWords(below) && AreWords(n.locals)
    ensures Evaluates(Native64, f, args, r)
       <==> PendingRuns.LazyStops(w, NativeOps(f, l), n, Native.NDone(below + r, n.mem))
  {
    hide Flatten, ItemsOf, SlotsOf, Accepted, LitsFit, Safe, Run, NativeFuncs.ProperIr, NativeFuncs.Whole, Fits,
      LowerFuncs.Computes, PendingRuns.LazyStops;
    var code, enc := Flatten(ItemsOf(f, l)), EncAll(Native64, args);
    NativeFuncs.EncWords(args);
    PartsHere(f, l);
    SwitchIsProper(f, l);
    var ls := enc + n.locals[|args|..];
    assert ls[..|args|] == enc;
    forall k: nat
      ensures Run(Native64, code, LowerStmts.Start(0, ls), k) != Crashed
    {
      NeverCrashes(Native64, f, l, args, ls, k);
    }
    NativeFuncs.NativeComputes(w, code, enc, below, n, r);
    SwitchPreserves(Native64, f, l, args, ls, r);
  }
}
