/** Whole functions: the lowering of a function of the fragment is a well-formed body and
    computes what direct evaluation computes. */
module LowerFuncs {
  import opened Ir
  import opened Shape
  import opened Ast
  import opened Lower
  import opened Lowered
  import opened LowerCorrect
  import opened LowerStmts
  import opened LowerShape
  import opened LowerLevels
  import opened LowerEnds
  import opened Wasm
  import Depths
  import Literals
  import StackifyCorrect

  /** A function of the fragment: names resolve, no initialiser reads the name it declares, a
      loop whose init is no assignment has neither init nor post, returns give as many values as
      declared, and a function with results ends in a terminating statement. */
  predicate Accepted(f: Func) {
    && AllInFragment(f.body) && AllScoped(f.body, [set x | x in f.params] + [{}], f.results)
    && (f.results == 0 || ListTerminating(f.body))
  }

  function ItemsOf(f: Func, l: nat): seq<Item> {
    LowerFunc(f, l).0
  }

  function SlotsOf(f: Func, l: nat): nat {
    LowerFunc(f, l).1
  }

  function InfoOf(f: Func, l: nat): FuncInfo {
    FuncInfo(|f.params|, SlotsOf(f, l), f.results)
  }

  // ----- entry -----

  lemma {:induction false} ParamSlots(params: seq<string>)
    ensures forall x :: x in ParamScope(params) <==> x in params
    ensures forall x :: x in ParamScope(params) ==> ParamScope(params)[x] < |params| && params[ParamScope(params)[x]] == x
  {
    if params != [] {
      ParamSlots(params[..|params| - 1]);
      assert params == params[..|params| - 1] + [params[|params| - 1]];
    }
  }

  lemma EntrySlots(f: Func, l: nat)
    ensures Slots(Entry(f, l).scopes, |f.params|)
    ensures NamesOf(Entry(f, l).scopes) == [set x | x in f.params]
  {
    ParamSlots(f.params);
    var sc := ParamScope(f.params);
    assert sc.Keys == set x | x in f.params;
  }

  lemma {:induction false} BindRel(m: Machine, params: seq<string>, args: seq<Value>)
    requires |params| == |args| && forall i :: 0 <= i < |args| ==> Fits(m, args[i])
    ensures ParamScope(params).Keys == Bind(params, args).Keys
    ensures forall x :: x in ParamScope(params) ==>
              ParamScope(params)[x] < |args| && Bind(params, args)[x] == args[ParamScope(params)[x]]
  {
    if params != [] {
      var n := |params| - 1;
      BindRel(m, params[..n], args[..n]);
    }
  }

  /** The frame starts with the arguments; the other slots may hold anything. */
  ghost predicate Passed(m: Machine, args: seq<Value>, locals: seq<int>) {
    && |args| <= |locals| && locals[..|args|] == EncAll(m, args)
    && forall i :: 0 <= i < |args| ==> Fits(m, args[i])
  }

  lemma EntryRel(m: Machine, f: Func, l: nat, args: seq<Value>, locals: seq<int>)
    requires |args| == |f.params| && Passed(m, args, locals)
    ensures Rel(m, Entry(f, l).scopes, [Bind(f.params, args)], locals)
  {
    BindRel(m, f.params, args);
    ParamSlots(f.params);
    var sc := ParamScope(f.params);
    forall x | x in sc
      ensures locals[sc[x]] == Enc(m, Bind(f.params, args)[x])
    {
      assert locals[sc[x]] == locals[..|args|][sc[x]];
    }
  }

  // ----- the shape of a function -----

  lemma BodyHere(f: Func, l: nat)
    requires Accepted(f)
    ensures var st := Entry(f, l);
      && Here(Stmt.Block(f.body), st, SlotsOf(f, l), f.results) && ListHere(f.body, Push(st), SlotsOf(f, l), f.results)
      && SlotsOf(f, l) >= |f.params|
      && LowerBlock(f.body, st).0 == LowerAll(f.body, Push(st)).0
  {
    hide NamesOf, Slots, LowerAll, AllScoped;
    var st := Entry(f, l);
    EntrySlots(f, l);
    BlockFollows(f.body, st);
    assert Scoped(Stmt.Block(f.body), NamesOf(st.scopes), f.results);
    BlockHere(f.body, st, SlotsOf(f, l), f.results);
  }

  /** The final RETURN, unless the code already ends in one. */
  function Tail(f: Func, l: nat): seq<Item> {
    if EndsInReturn(Flatten(LowerBlock(f.body, Entry(f, l)).0)) then [] else [Plain(Inst.Return(0))]
  }

  lemma FuncSplit(f: Func, l: nat)
    ensures ItemsOf(f, l) == LowerBlock(f.body, Entry(f, l)).0 + Tail(f, l)
  {
  }

  lemma TailLevel(f: Func, l: nat)
    ensures LevelOK(Tail(f, l), None) && Clean(Tail(f, l), SlotsOf(f, l), {})
  {
    var it := Plain(Inst.Return(0));
    assert [it][1..] == [];
    FreshOne(it, 0, 0);
    CleanNone(SlotsOf(f, l));
  }

  /** The lowering of every accepted function is a good body: jumps go where the structured
      code can follow, labels are distinct, one operand-stack height at every label. */
  lemma LoweringIsGood(f: Func, l: nat)
    requires Accepted(f)
    ensures StackifyCorrect.GoodBody(InfoOf(f, l), ItemsOf(f, l))
  {
    hide LowerAll, LowerBlock, Clean, LevelOK, Here, ListHere, Flatten, FlowAll, ListTerminating, AllScoped, AllInFragment;
    var st, n, rc := Entry(f, l), SlotsOf(f, l), f.results;
    var body, tail, items := LowerBlock(f.body, st).0, Tail(f, l), ItemsOf(f, l);
    var hi := LowerAll(f.body, Push(st)).1.l;
    FuncSplit(f, l);
    BodyHere(f, l);
    TailLevel(f, l);
    AllClean(f.body, Push(st), n, rc);
    CleanAppend(body, tail, n, Range(l, hi), {});
    AllLevel(f.body, Push(st), tail, None, n, rc);
    AllArity(f.body, Push(st), n, rc);
    if f.results != 0 {
      AllDies(f.body, Push(st), n, rc, Targets(items), StackifyCorrect.START);
    }
    ReturnsGood(f, l, body, tail);
    GoodFrom(InfoOf(f, l), items, Range(l, hi) + {});
  }

  lemma ReturnsGood(f: Func, l: nat, body: seq<Item>, tail: seq<Item>)
    requires Arity(body, f.results) && (tail == [] || tail == [Plain(Inst.Return(0))])
    requires f.results != 0 ==> FlowAll(body, Targets(body + tail), StackifyCorrect.START).dead
    ensures ReturnsOK(body + tail, Targets(body + tail), StackifyCorrect.START, f.results)
  {
    hide FlowAll, Targets;
    var T := Targets(body + tail);
    ArityReturns(body, T, StackifyCorrect.START, f.results);
    ReturnsAppend(body, tail, T, StackifyCorrect.START, f.results);
    assert tail != [] ==> tail[1..] == [];
  }

  lemma GoodFrom(fi: FuncInfo, items: seq<Item>, S: set<int>)
    requires LevelOK(items, None) && Clean(items, fi.slots, S)
    requires ReturnsOK(items, Targets(items), StackifyCorrect.START, fi.rc)
    ensures StackifyCorrect.GoodBody(fi, items)
  {
  }

  // ----- operand-stack heights -----

  /** The static depth of the instruction at pc: what the compiler had counted to when it
      emitted it. */
  function DepthAt(f: Func, l: nat, pc: nat): int
    requires pc < |Flatten(ItemsOf(f, l))|
  {
    Depths.Depths(ItemsOf(f, l), 0).0[pc]
  }

  /** Every label has one operand-stack height: on every machine, from any frame, whichever way
      a run gets there, the stack is as high as the compiler's static depth at that label - and
      so at every other instruction that is reached. */
  lemma LabelHeight(m: Machine, f: Func, l: nat, locals: seq<int>, n: nat)
    requires Accepted(f)
    ensures var c := Run(m, Flatten(ItemsOf(f, l)), Start(0, locals), n);
      c.Running? ==> c.pc <= |Flatten(ItemsOf(f, l))| && (c.pc < |Flatten(ItemsOf(f, l))| ==> |c.s.stack| == DepthAt(f, l, c.pc))
  {
    hide Run, Flatten, ItemsOf, Depths.Depths, Accepted, LevelOK, Height, SlotsOf;
    var items := ItemsOf(f, l);
    LoweringIsGood(f, l);
    assert Depths.Shaped(items);
    Depths.Starts(items, 0);
    Depths.RunDepth(m, items, Start(0, locals), n);
  }

  // ----- meaning -----

  /** Direct evaluation returns values whose machine words are r. */
  ghost predicate Evaluates(m: Machine, f: Func, args: seq<Value>, r: seq<int>)
    requires |args| == |f.params|
  {
    exists fuel: nat :: Gives(m, Call(m, f, args, fuel), r)
  }

  ghost predicate Gives(m: Machine, o: Outcome, r: seq<int>) {
    o.Returned? && EncAll(m, o.vs) == r
  }

  /** Evaluation never meets an operation that a type checker would reject. */
  ghost predicate Safe(m: Machine, f: Func, args: seq<Value>)
    requires |args| == |f.params|
  {
    forall fuel: nat :: !Call(m, f, args, fuel).Stuck?
  }

  ghost predicate Computes(m: Machine, code: seq<Inst>, locals: seq<int>, r: seq<int>) {
    exists n: nat :: Run(m, code, Start(0, locals), n) == Done(r)
  }

  /** One evaluation and the run of the code. */
  lemma CallSim(m: Machine, f: Func, l: nat, args: seq<Value>, locals: seq<int>, fuel: nat)
    requires Accepted(f) && |args| == |f.params| && Passed(m, args, locals) && |locals| == SlotsOf(f, l)
    ensures var o, code := Call(m, f, args, fuel), Flatten(ItemsOf(f, l));
      && (o.Returned? ==> Reach(m, code, Start(0, locals), Done(EncAll(m, o.vs))))
      && (o.Timeout? ==> Busy(m, code, Start(0, locals), fuel))
      && (o.Returned? || o.Timeout? || o.Stuck?)
  {
    hide LowerBlock, Flatten, Rel, Slots, Reach, Busy, ExecAll, LabelPos, AllInFragment, AllScoped, DistinctLabels, At;
    var st, code := Entry(f, l), Flatten(ItemsOf(f, l));
    var env := [Bind(f.params, args)];
    FuncSplit(f, l);
    var body := LowerBlock(f.body, st).0;
    EntrySlots(f, l);
    EntryRel(m, f, l, args, locals);
    CodeHere(f, l);
    BlockSim(m, f.body, st, code, 0, env, locals, fuel);
    var o := Leave(ExecAll(m, f.body, env + [map[]], fuel));
    CallIs(m, f, args, fuel);
    if o.Normal? {
      var ls := NormalAt(m, code, Start(0, locals), o, |Flatten(body)|, LowerBlock(f.body, st).1, st, |locals|, fuel);
      FallsOff(m, f, l, ls);
      ReachTrans(m, code, Start(0, locals), Start(|Flatten(body)|, ls), Done([]));
      assert EncAll(m, []) == [];
    }
  }

  lemma CallIs(m: Machine, f: Func, args: seq<Value>, fuel: nat)
    requires |args| == |f.params|
    ensures var o := Leave(ExecAll(m, f.body, [Bind(f.params, args)] + [map[]], fuel));
      Call(m, f, args, fuel) ==
        if o.Normal? then Returned([]) else if o.Broke? || o.Continued? then Stuck else o
  {
  }

  lemma CodeHere(f: Func, l: nat)
    requires Accepted(f)
    ensures var code := Flatten(ItemsOf(f, l));
      && At(code, 0, Flatten(LowerBlock(f.body, Entry(f, l)).0)) && DistinctLabels(code)
      && LowerBlock(f.body, Entry(f, l)).1.n == SlotsOf(f, l)
  {
    hide LowerBlock, Flatten;
    LoweringIsGood(f, l);
    FuncSplit(f, l);
    var a, b := LowerBlock(f.body, Entry(f, l)).0, Tail(f, l);
    FlattenAppend(a, b);
    assert (Flatten(a) + Flatten(b))[..|Flatten(a)|] == Flatten(a);
  }

  /** Control that reaches the end of the body returns nothing. */
  lemma FallsOff(m: Machine, f: Func, l: nat, ls: seq<int>)
    ensures var code := Flatten(ItemsOf(f, l));
      Reach(m, code, Start(|Flatten(LowerBlock(f.body, Entry(f, l)).0)|, ls), Done([]))
  {
    hide LowerBlock;
    FuncSplit(f, l);
    var a, b := LowerBlock(f.body, Entry(f, l)).0, Tail(f, l);
    FlattenAppend(a, b);
    var it := Plain(Inst.Return(0));
    assert [it][1..] == [] && Flatten([it]) == [Inst.Return(0)];
    ReachStep(m, Flatten(a + b), Start(|Flatten(a)|, ls));
  }

  /** Lowering preserves meaning, on each machine: the code ends with the words r exactly when
      direct evaluation returns values that are r - whatever the uninitialised slots hold. */
  lemma LoweringPreserves(m: Machine, f: Func, l: nat, args: seq<Value>, locals: seq<int>, r: seq<int>)
    requires Accepted(f) && |args| == |f.params| && Passed(m, args, locals) && |locals| == SlotsOf(f, l)
    requires Safe(m, f, args)
    ensures Evaluates(m, f, args, r) <==> Computes(m, Flatten(ItemsOf(f, l)), locals, r)
  {
    hide Run, Call, ItemsOf, Flatten, SlotsOf, Accepted;
    var code, c := Flatten(ItemsOf(f, l)), Start(0, locals);
    if fuel: nat :| Gives(m, Call(m, f, args, fuel), r) {
      CallSim(m, f, l, args, locals, fuel);
      var n: nat :| Run(m, code, c, n) == Done(EncAll(m, Call(m, f, args, fuel).vs));
      assert Run(m, code, Start(0, locals), n) == Done(r);
    }
    if n: nat :| Run(m, code, Start(0, locals), n) == Done(r) {
      CallSim(m, f, l, args, locals, n);
      var o := Call(m, f, args, n);
      assert !o.Timeout?;
      var k: nat :| Run(m, code, c, k) == Done(EncAll(m, o.vs));
      ResultUnique(m, code, c, n, k);
      assert Gives(m, o, r);
    }
  }

  /** The emitted code ends in a return, the compiler's own or the added one. */
  lemma EndsReturning(f: Func, l: nat)
    ensures EndsInReturn(Flatten(ItemsOf(f, l)))
  {
    FuncSplit(f, l);
    var a, b := LowerBlock(f.body, Entry(f, l)).0, Tail(f, l);
    FlattenAppend(a, b);
    if b == [] {
      assert a + b == a;
    } else {
      assert b[1..] == [];
    }
  }

  /** From source to WebAssembly: the compiled function, prologue included, returns r exactly
      when direct evaluation with 32-bit ints does, and it never traps. Its caller finds the
      shadow-stack pointer where it was, and its memory untouched but for the callee's frame
      and the scratch words. */
  lemma CompiledPreserves(f: Func, l: nat, args: seq<Value>, w: WState, r: seq<int>)
    requires Accepted(f) && |args| == |f.params| && f.results <= MAX_RESULTS && Safe(Vm32, f, args)
    requires Literals.LitsFit(Vm32, f) && forall i :: 0 <= i < |args| ==> Fits(Vm32, args[i])
    requires StackifyCorrect.Called(InfoOf(f, l), EncAll(Vm32, args), w)
    ensures var fi, code := InfoOf(f, l), StackifyCorrect.FuncCode(InfoOf(f, l), ItemsOf(f, l));
      && (Evaluates(Vm32, f, args, r) <==> StackifyCorrect.WasmGives(fi.rc, Code(code, [], w), r))
      && (forall n: nat :: WRun(fi.rc, Code(code, [], w), n) != Trapped)
      && (forall n: nat {:trigger WRun(fi.rc, Code(code, [], w), n)} ::
            WRun(fi.rc, Code(code, [], w), n).Finished? ==>
              StackifyCorrect.Back(fi, w, WRun(fi.rc, Code(code, [], w), n)))
  {
    hide Run, WRun, Call, ItemsOf, Flatten, SlotsOf, Accepted, StackifyCorrect.GoodBody,
      StackifyCorrect.TaggedBody, Safe, EndsInReturn, ConstsBelow, StackifyCorrect.Back, Literals.LitsFit;
    var fi, items := InfoOf(f, l), ItemsOf(f, l);
    BodyHere(f, l);
    var locals := StackifyCorrect.EntryLocals(fi, EncAll(Vm32, args), w);
    assert locals[..|args|] == EncAll(Vm32, args);
    LoweringIsGood(f, l);
    LoweringPreserves(Vm32, f, l, args, locals, r);
    WordConsts(f, l);
    EndsReturning(f, l);
    StackifyCorrect.GoodIsTagged(fi, items);
    StackifyCorrect.FunctionPreserves(fi, items, {}, EncAll(Vm32, args), w, r);
    SameRun(items, locals, r);
  }

  lemma WordConsts(f: Func, l: nat)
    requires Literals.LitsFit(Vm32, f)
    ensures ConstsBelow(Flatten(ItemsOf(f, l)), TWO32)
  {
    hide Flatten;
    Literals.CodeConsts(Vm32, f, l);
  }

  lemma SameRun(items: seq<Item>, locals: seq<int>, r: seq<int>)
    ensures Computes(Vm32, Flatten(items), locals, r) <==> StackifyCorrect.FlatGives(items, locals, r)
  {
    hide Run, Flatten;
    if n: nat :| Run(Vm32, Flatten(items), Start(0, locals), n) == Done(r) {
      assert StackifyCorrect.FlatRun(items, locals, n) == Done(r);
    }
    if n: nat :| StackifyCorrect.FlatRun(items, locals, n) == Done(r) {
      assert Run(Vm32, Flatten(items), Start(0, locals), n) == Done(r);
    }
  }
}
