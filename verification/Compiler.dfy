/** The compiler object: it appends to the code of the current function and keeps scopes,
    labels, break and continue targets and a static operand-stack depth. Every method is
    proved against the functions of `Lower`, and the depth it keeps against `Depths`. */
module Compiler {
  import opened Ir
  import opened Shape
  import opened Ast
  import opened Lower
  import opened Lowered
  import opened Depths
  import opened Switches

  /** The items a, then b, emitted after c. */
  lemma Joined(c: seq<Inst>, a: seq<Item>, b: seq<Item>)
    ensures c + Flatten(a) + Flatten(b) == c + Flatten(a + b)
  {
    FlattenAppend(a, b);
  }

  lemma One(it: Item, i: Inst)
    requires FlatItem(it) == [i]
    ensures Flatten([it]) == [i]
  {
    assert [it][1..] == [];
  }

  lemma ShortCode(it: Item)
    requires it.Short?
    ensures Flatten([it]) == [if it.onTrue then JmpIf(it.tgt) else JmpIfNot(it.tgt)] + Flatten(it.rhs)
                             + [Jmp(it.end)] + [Label(it.tgt)] + [ConstBool(it.k)] + [Label(it.end)]
  {
    assert [it][1..] == [];
  }

  lemma LoopCode(it: Item)
    requires it.Loop?
    ensures Flatten([it]) == [Label(it.head)] + Flatten(it.body) + [Label(it.brk)]
  {
    assert [it][1..] == [];
  }

  // ----- an empty scope makes no difference -----

  /** An empty scope in between, k scopes up from the outermost. */
  function Insert(sc: Scopes, k: nat): Scopes
    requires k <= |sc|
  {
    sc[..k] + [map[]] + sc[k..]
  }

  function InsertSt(st: St, k: nat): St
    requires k <= |st.scopes|
  {
    st.(scopes := Insert(st.scopes, k))
  }

  lemma {:induction false} LookupInsert(sc: Scopes, k: nat, x: string)
    requires k <= |sc|
    ensures Lookup(Insert(sc, k), x) == Lookup(sc, x)
    decreases |sc|
  {
    var t := Insert(sc, k);
    if k == |sc| {
      assert t[..|t| - 1] == sc;
    } else {
      var n := |sc| - 1;
      assert t[..|t| - 1] == Insert(sc[..n], k);
      LookupInsert(sc[..n], k, x);
    }
  }

  lemma {:induction false} ExprInsert(e: Expr, sc: Scopes, k: nat, l: nat)
    requires k <= |sc|
    ensures LowerExpr(e, Insert(sc, k), l) == LowerExpr(e, sc, l)
    decreases e
  {
    hide Insert, Lookup;
    match e
    case Var(x) => LookupInsert(sc, k, x);
    case Binary(_, a, b) => ExprInsert(a, sc, k, l); ExprInsert(b, sc, k, LowerExpr(a, sc, l).1);
    case AndAlso(a, b) => ExprInsert(a, sc, k, l + 2); ExprInsert(b, sc, k, LowerExpr(a, sc, l + 2).1);
    case OrElse(a, b) => ExprInsert(a, sc, k, l + 2); ExprInsert(b, sc, k, LowerExpr(a, sc, l + 2).1);
    case Negate(a) => ExprInsert(a, sc, k, l);
    case Invert(a) => ExprInsert(a, sc, k, l);
    case _ =>
  }

  lemma {:induction false} ExprsInsert(es: seq<Expr>, sc: Scopes, k: nat, l: nat)
    requires k <= |sc|
    ensures LowerExprs(es, Insert(sc, k), l) == LowerExprs(es, sc, l)
  {
    if es != [] {
      ExprInsert(es[0], sc, k, l);
      ExprsInsert(es[1..], sc, k, LowerExpr(es[0], sc, l).1);
    }
  }

  lemma InsertLocal(st: St, k: nat, x: string)
    requires k < |st.scopes|
    ensures Local(InsertSt(st, k), x) == InsertSt(Local(st, x), k)
  {
    var n := |st.scopes| - 1;
    assert Insert(st.scopes, k)[..n + 1] == Insert(st.scopes[..n], k);
    assert AddName(Insert(st.scopes, k), x, st.n) == Insert(AddName(st.scopes, x, st.n), k);
  }

  lemma InsertPush(st: St, k: nat)
    requires k <= |st.scopes|
    ensures Push(InsertSt(st, k)) == InsertSt(Push(st), k)
  {
    assert st.scopes[k..] + [map[]] == (st.scopes + [map[]])[k..];
    assert Insert(st.scopes, k) + [map[]] == Insert(st.scopes + [map[]], k);
  }

  lemma InsertPop(st: St, k: nat)
    requires k < |st.scopes|
    ensures Pop(InsertSt(st, k)) == InsertSt(Pop(st), k)
  {
    var n := |st.scopes| - 1;
    assert Insert(st.scopes, k)[..n + 1] == Insert(st.scopes[..n], k);
  }

  /** Lowering below an extra empty scope gives the same code. */
  ghost predicate Same(c: (seq<Item>, St), d: (seq<Item>, St), st: St, k: nat) {
    k <= |d.1.scopes| == |st.scopes| && c == (d.0, InsertSt(d.1, k))
  }

  lemma {:induction false} StmtInsert(s: Stmt, st: St, k: nat)
    requires k < |st.scopes|
    ensures Same(LowerStmt(s, InsertSt(st, k)), LowerStmt(s, st), st, k)
    decreases s, 2
  {
    hide LowerExpr, LowerExprs, Insert, LowerLoop, LowerAll;
    match s
    case If(_, _, _) =>
      hide Same, LowerStmt;
      IfInsert(s, st, k);
    case For(_, _, _, _) =>
      hide Same, LowerStmt;
      ForInsert(s, st, k);
    case Block(ss) => BlockInsert(ss, st, k);
    case _ =>
      hide Same, LowerStmt;
      SimpleInsert(s, st, k);
  }

  lemma SimpleInsert(s: Stmt, st: St, k: nat)
    requires k < |st.scopes| && !s.If? && !s.For? && !s.Block?
    ensures Same(LowerStmt(s, InsertSt(st, k)), LowerStmt(s, st), st, k)
  {
    hide LowerExpr, LowerExprs, Insert;
    match s
    case Decl(x, e) =>
      InsertLocal(st, k, x);
      ExprInsert(e, Local(st, x).scopes, k, st.l);
    case Zero(x, _) => InsertLocal(st, k, x);
    case Assign(x, e) => ExprInsert(e, st.scopes, k, st.l); LookupInsert(st.scopes, k, x);
    case OpAssign(x, op, e) =>
      ExprInsert(Binary(op, Var(x), e), st.scopes, k, st.l);
      LookupInsert(st.scopes, k, x);
    case Inc(x) =>
      ExprInsert(Binary(Add, Var(x), Lit(1)), st.scopes, k, st.l);
      LookupInsert(st.scopes, k, x);
    case Eval(e) => ExprInsert(e, st.scopes, k, st.l);
    case Return(es) => ExprsInsert(es, st.scopes, k, st.l);
    case _ =>
  }

  lemma {:induction false} IfInsert(s: Stmt, st: St, k: nat)
    requires s.If? && k < |st.scopes|
    ensures Same(LowerStmt(s, InsertSt(st, k)), LowerStmt(s, st), st, k)
    decreases s, 1
  {
    hide LowerExpr, LowerBlock, LowerStmt, Insert;
    IfIs(s, st);
    IfIs(s, InsertSt(st, k));
    ExprInsert(s.cond, st.scopes, k, st.l + 2);
    var st1 := Labelled(st, LowerExpr(s.cond, st.scopes, st.l + 2).1);
    BlockInsert(s.thn, st1, k);
    StmtInsert(s.els, LowerBlock(s.thn, st1).1, k);
  }

  lemma {:induction false} ForInsert(s: Stmt, st: St, k: nat)
    requires s.For? && k < |st.scopes|
    ensures Same(LowerStmt(s, InsertSt(st, k)), LowerStmt(s, st), st, k)
    decreases s, 1
  {
    hide LowerStmt, LowerLoop, Insert;
    ForIs(s, st);
    ForIs(s, InsertSt(st, k));
    var base := st.(l := st.l + 3, brks := st.brks + [st.l + 2], conts := st.conts + [st.l + 1]);
    InsertPush(base, k);
    if IsAssignment(s.init) {
      StmtInsert(s.init, LoopStart(st), k);
    }
    var st1 := AfterInit(s, st).1;
    LoopInsert(s, st.l, st1, k);
    InsertPop(LowerLoop(s, st.l, st1).1.(brks := st.brks, conts := st.conts), k);
  }

  lemma {:induction false} LoopInsert(s: Stmt, l: int, st: St, k: nat)
    requires s.For? && (k < |st.scopes| || (k == |st.scopes| && !IsAssignment(s.init)))
    ensures Same(LowerLoop(s, l, InsertSt(st, k)), LowerLoop(s, l, st), st, k)
    decreases s, 0
  {
    hide LowerExpr, Insert, LowerBlock;
    if s.test.Some? {
      ExprInsert(s.test.value, st.scopes, k, st.l);
    }
    var st1 := Labelled(st, Test(s.test, st.scopes, st.l, l + 2).1);
    BlockInsert(s.body, st1, k);
    if IsAssignment(s.init) {
      StmtInsert(s.post, LowerBlock(s.body, st1).1, k);
    }
  }

  lemma {:induction false} BlockInsert(ss: seq<Stmt>, st: St, k: nat)
    requires k <= |st.scopes|
    ensures Same(LowerBlock(ss, InsertSt(st, k)), LowerBlock(ss, st), st, k)
    decreases ss, 1
  {
    hide Insert, LowerAll;
    InsertPush(st, k);
    AllInsert(ss, Push(st), k);
    InsertPop(LowerAll(ss, Push(st)).1, k);
  }

  lemma {:induction false} AllInsert(ss: seq<Stmt>, st: St, k: nat)
    requires k < |st.scopes|
    ensures Same(LowerAll(ss, InsertSt(st, k)), LowerAll(ss, st), st, k)
    decreases ss, 0
  {
    hide Insert, LowerStmt;
    if ss != [] {
      StmtInsert(ss[0], st, k);
      AllInsert(ss[1..], LowerStmt(ss[0], st).1, k);
    }
  }

  /** A loop that is not a three-clause one may as well open no scope. */
  lemma PlainLoop(s: Stmt, l: int, st: St)
    requires s.For? && !IsAssignment(s.init)
    ensures LowerLoop(s, l, Push(st)).0 == LowerLoop(s, l, st).0
    ensures Pop(LowerLoop(s, l, Push(st)).1) == LowerLoop(s, l, st).1
  {
    var k := |st.scopes|;
    assert Insert(st.scopes, k) == st.scopes + [map[]];
    LoopInsert(s, l, st, k);
    var d := LowerLoop(s, l, st).1;
    assert Insert(d.scopes, k)[..k] == d.scopes;
  }

  lemma AddNameMeans(sc: Scopes, x: string, n: nat)
    ensures sc != [] ==> Lookup(AddName(sc, x, n), x) == n
    ensures forall y :: y != x ==> Lookup(AddName(sc, x, n), y) == Lookup(sc, y)
    ensures Slots(sc, n) ==> Slots(AddName(sc, x, n), n + 1)
  {
    if sc != [] {
      var t := AddName(sc, x, n);
      assert t[..|t| - 1] == sc[..|sc| - 1];
    }
  }

  class Compiler {
    var code: seq<Inst>
    var scopes: Scopes
    var nlocals: nat
    var labelSeq: nat
    var breaks: seq<int>
    var continues: seq<int>
    var stackDepth: int
    /** The depth before each instruction, as it was when that was emitted. */
    ghost var depths: seq<int>

    constructor ()
      ensures code == [] && Cur() == St([], 0, 0, [], []) && stackDepth == 0
    {
      code, scopes, nlocals, labelSeq, breaks, continues, stackDepth := [], [], 0, 0, [], [], 0;
      depths := [];
    }

    function Cur(): St
      reads this
    {
      St(scopes, nlocals, labelSeq, breaks, continues)
    }

    method NewLabel() returns (l: nat)
      modifies `labelSeq
      ensures l == old(labelSeq) && labelSeq == l + 1
    {
      l := labelSeq;
      labelSeq := labelSeq + 1;
    }

    method Emit(i: Inst)
      modifies `code, `stackDepth, `depths
      ensures code == old(code) + [i] && stackDepth == old(stackDepth) + StackDelta(i)
      ensures depths == old(depths) + [old(stackDepth)]
    {
      code := code + [i];
      depths := depths + [stackDepth];
      stackDepth := stackDepth + StackDelta(i);
    }

    method PushScope()
      modifies `scopes
      ensures Cur() == Push(old(Cur()))
    {
      scopes := scopes + [map[]];
    }

    method PopScope()
      modifies `scopes
      ensures Cur() == Pop(old(Cur()))
    {
      if |scopes| > 0 {
        scopes := scopes[..|scopes| - 1];
      }
    }

    /** The name now means the new slot, every other name what it meant before; no other name
        has this slot when slots were below the count. */
    method AddLocal(x: string) returns (idx: nat)
      modifies `nlocals, `scopes
      ensures idx == old(nlocals) && Cur() == Local(old(Cur()), x)
      ensures old(scopes) != [] ==> Lookup(scopes, x) == idx
      ensures forall y :: y != x ==> Lookup(scopes, y) == Lookup(old(scopes), y)
      ensures Slots(old(scopes), old(nlocals)) ==> Slots(scopes, nlocals)
    {
      AddNameMeans(scopes, x, nlocals);
      idx := nlocals;
      nlocals := nlocals + 1;
      if |scopes| > 0 {
        scopes := scopes[..|scopes| - 1] + [scopes[|scopes| - 1][x := idx]];
      }
    }

    /** The innermost scope that declares x decides. */
    method LookupLocal(x: string) returns (idx: int)
      ensures idx == Lookup(scopes, x)
    {
      var i := |scopes| - 1;
      assert scopes[..|scopes|] == scopes;
      while i >= 0
        invariant -1 <= i < |scopes| && Lookup(scopes, x) == Lookup(scopes[..i + 1], x)
      {
        assert scopes[..i + 1][..i] == scopes[..i];
        if x in scopes[i] {
          return scopes[i][x];
        }
        i := i - 1;
      }
      idx := -1;
    }

    method CompileExpr(e: Expr)
      modifies `code, `stackDepth, `depths, `labelSeq
      ensures code == old(code) + Flatten(LowerExpr(e, scopes, old(labelSeq)).0)
      ensures labelSeq == LowerExpr(e, scopes, old(labelSeq)).1
      ensures stackDepth == old(stackDepth) + 1
      ensures Traced(old(depths), old(stackDepth), LowerExpr(e, scopes, old(labelSeq)).0, depths, stackDepth)
      decreases e, 1
    {
      hide Traced, Flatten;
      match e
      case Lit(n) => EmitPlain(ConstI64(n));
      case BoolLit(b) => EmitPlain(ConstBool(if b then 1 else 0));
      case Var(x) =>
        var idx := LookupLocal(x);
        EmitPlain(LocalGet(idx));
      case Binary(op, a, b) => CompileBinaryExpr(e);
      case AndAlso(a, b) => CompileShortCircuit(e, false, a, b);
      case OrElse(a, b) => CompileShortCircuit(e, true, a, b);
      case Negate(a) => CompileUnaryExpr(e, a, Neg);
      case Invert(a) => CompileUnaryExpr(e, a, Not);
    }

    /** An instruction that is an item of its own. */
    method EmitPlain(i: Inst)
      modifies `code, `stackDepth, `depths
      ensures code == old(code) + Flatten([Plain(i)]) && stackDepth == old(stackDepth) + StackDelta(i)
      ensures Traced(old(depths), old(stackDepth), [Plain(i)], depths, stackDepth)
    {
      One(Plain(i), i);
      TracedOne(depths, stackDepth, Plain(i));
      Emit(i);
    }

    method CompileUnaryExpr(e: Expr, a: Expr, i: Inst)
      requires (e == Negate(a) && i == Neg) || (e == Invert(a) && i == Not)
      modifies `code, `stackDepth, `depths, `labelSeq
      ensures code == old(code) + Flatten(LowerExpr(e, scopes, old(labelSeq)).0)
      ensures labelSeq == LowerExpr(e, scopes, old(labelSeq)).1
      ensures stackDepth == old(stackDepth) + 1
      ensures Traced(old(depths), old(stackDepth), LowerExpr(e, scopes, old(labelSeq)).0, depths, stackDepth)
      decreases e, 0
    {
      hide Traced, Flatten;
      ghost var x := LowerExpr(a, scopes, labelSeq).0;
      CompileExpr(a);
      ghost var d, h := depths, stackDepth;
      EmitPlain(i);
      Joined(old(code), x, [Plain(i)]);
      TracedJoin(old(depths), old(stackDepth), x, d, h, [Plain(i)], depths, stackDepth);
    }

    method CompileBinaryExpr(e: Expr)
      requires e.Binary?
      modifies `code, `stackDepth, `depths, `labelSeq
      ensures code == old(code) + Flatten(LowerExpr(e, scopes, old(labelSeq)).0)
      ensures labelSeq == LowerExpr(e, scopes, old(labelSeq)).1
      ensures stackDepth == old(stackDepth) + 1
      ensures Traced(old(depths), old(stackDepth), LowerExpr(e, scopes, old(labelSeq)).0, depths, stackDepth)
      decreases e, 0
    {
      hide Traced, Flatten;
      ghost var x := LowerExpr(e.left, scopes, labelSeq);
      ghost var y := LowerExpr(e.right, scopes, x.1);
      CompileExpr(e.left);
      ghost var c1, d1, h1 := code, depths, stackDepth;
      CompileExpr(e.right);
      ghost var d2, h2 := depths, stackDepth;
      EmitPlain(Bin(e.op));
      Joined(c1, y.0, [Plain(Bin(e.op))]);
      Joined(old(code), x.0, y.0 + [Plain(Bin(e.op))]);
      TracedJoin(d1, h1, y.0, d2, h2, [Plain(Bin(e.op))], depths, stackDepth);
      TracedJoin(old(depths), old(stackDepth), x.0, d1, h1, y.0 + [Plain(Bin(e.op))], depths, stackDepth);
    }

    /** The test of the left operand jumps over the right one. */
    method CompileShortCircuit(e: Expr, onTrue: bool, a: Expr, b: Expr)
      requires e == if onTrue then OrElse(a, b) else AndAlso(a, b)
      modifies `code, `stackDepth, `depths, `labelSeq
      ensures code == old(code) + Flatten(LowerExpr(e, scopes, old(labelSeq)).0)
      ensures labelSeq == LowerExpr(e, scopes, old(labelSeq)).1
      ensures stackDepth == old(stackDepth) + 1
      ensures Traced(old(depths), old(stackDepth), LowerExpr(e, scopes, old(labelSeq)).0, depths, stackDepth)
      decreases e, 0
    {
      hide LowerExpr, Flatten, Lookup, Traced;
      ghost var l0 := labelSeq;
      ShortIs(e, onTrue, a, b, scopes, labelSeq);
      var target := NewLabel();
      var endLabel := NewLabel();
      ghost var x := LowerExpr(a, scopes, l0 + 2);
      ghost var y := LowerExpr(b, scopes, x.1);
      ghost var it := Short(onTrue, l0, l0 + 1, FromBool(onTrue), y.0);
      CompileExpr(a);
      ghost var d1, h1 := depths, stackDepth;
      Emit(if onTrue then JmpIf(target) else JmpIfNot(target));
      var savedDepth := stackDepth;
      CompileExpr(b);
      ghost var d2, h2 := depths, stackDepth;
      Emit(Jmp(endLabel));
      stackDepth := savedDepth;
      Emit(Label(target));
      Emit(ConstBool(if onTrue then 1 else 0));
      Emit(Label(endLabel));
      ShortJoined(old(code), x.0, it, code);
      TracedShort(d1, h1, it, d2, h2);
      TracedJoin(old(depths), old(stackDepth), x.0, d1, h1, [it], depths, stackDepth);
    }

    /** The top of the stack goes to a named variable. */
    method CompileLValueSet(x: string)
      modifies `code, `stackDepth, `depths
      ensures code == old(code) + Flatten([StoreTo(scopes, x)])
      ensures stackDepth == old(stackDepth) - 1
      ensures Traced(old(depths), old(stackDepth), [StoreTo(scopes, x)], depths, stackDepth)
    {
      hide Traced, Flatten;
      if x == "_" {
        EmitPlain(Inst.Drop);
      } else {
        var idx := LookupLocal(x);
        EmitPlain(LocalSet(idx));
      }
    }

    /** A condition and the jump that a false one takes. */
    method CompileTest(e: Expr, target: int)
      modifies `code, `stackDepth, `depths, `labelSeq
      ensures var x := LowerExpr(e, scopes, old(labelSeq));
        && code == old(code) + Flatten(x.0 + [GotoIfNot(target)]) && labelSeq == x.1
        && Traced(old(depths), old(stackDepth), x.0 + [GotoIfNot(target)], depths, stackDepth)
      ensures stackDepth == old(stackDepth)
    {
      hide Traced, LowerExpr;
      ghost var x := LowerExpr(e, scopes, labelSeq);
      CompileExpr(e);
      ghost var d, h := depths, stackDepth;
      Emit(JmpIfNot(target));
      One(GotoIfNot(target), JmpIfNot(target));
      Joined(old(code), x.0, [GotoIfNot(target)]);
      TracedOne(d, h, GotoIfNot(target));
      TracedJoin(old(depths), old(stackDepth), x.0, d, h, [GotoIfNot(target)], depths, stackDepth);
    }

    /** An expression, then one instruction that uses its value up. */
    method CompileThen(e: Expr, i: Inst)
      requires StackDelta(i) == -1
      modifies `code, `stackDepth, `depths, `labelSeq
      ensures var y := LowerExpr(e, scopes, old(labelSeq));
        && code == old(code) + Flatten(y.0 + [Plain(i)]) && labelSeq == y.1
        && Traced(old(depths), old(stackDepth), y.0 + [Plain(i)], depths, stackDepth)
      ensures stackDepth == old(stackDepth)
    {
      hide Traced, LowerExpr, Flatten;
      ghost var y := LowerExpr(e, scopes, labelSeq);
      CompileExpr(e);
      ghost var d, h := depths, stackDepth;
      EmitPlain(i);
      Joined(old(code), y.0, [Plain(i)]);
      TracedJoin(old(depths), old(stackDepth), y.0, d, h, [Plain(i)], depths, stackDepth);
    }

    /** An expression whose value goes to a variable. */
    method CompileStore(e: Expr, x: string)
      modifies `code, `stackDepth, `depths, `labelSeq
      ensures var y := LowerExpr(e, scopes, old(labelSeq));
        && code == old(code) + Flatten(y.0 + [StoreTo(scopes, x)]) && labelSeq == y.1
        && Traced(old(depths), old(stackDepth), y.0 + [StoreTo(scopes, x)], depths, stackDepth)
      ensures stackDepth == old(stackDepth)
    {
      hide Traced, LowerExpr, Flatten;
      ghost var y := LowerExpr(e, scopes, labelSeq);
      CompileExpr(e);
      ghost var d, h := depths, stackDepth;
      CompileLValueSet(x);
      Joined(old(code), y.0, [StoreTo(scopes, x)]);
      TracedJoin(old(depths), old(stackDepth), y.0, d, h, [StoreTo(scopes, x)], depths, stackDepth);
    }

    method CompileStmt(s: Stmt)
      modifies this
      ensures code == old(code) + Flatten(LowerStmt(s, old(Cur())).0)
      ensures Cur() == LowerStmt(s, old(Cur())).1 && stackDepth == old(stackDepth)
      ensures breaks == old(breaks) && continues == old(continues)
      ensures Traced(old(depths), old(stackDepth), LowerStmt(s, old(Cur())).0, depths, stackDepth)
      decreases s, 2
    {
      hide Flatten, LowerLoop, LowerExpr, LowerExprs, LowerAll, Traced;
      Nothing(code);
      TracedNone(depths, stackDepth);
      match s
      case Nop =>
      case Decl(x, e) => CompileDecl(x, e);
      case Zero(x, t) => CompileZero(x, t);
      case Assign(x, e) => CompileStore(e, x);
      case OpAssign(x, op, e) => CompileStore(Binary(op, Var(x), e), x);
      case Inc(x) =>
        IncLabels(x, scopes, labelSeq);
        CompileStore(Binary(Add, Var(x), Lit(1)), x);
      case Eval(e) => CompileThen(e, Inst.Drop);
      case If(_, _, _) => CompileIf(s);
      case For(_, _, _, _) => CompileFor(s);
      case Break =>
        if |breaks| > 0 {
          EmitGoto(breaks[|breaks| - 1]);
        }
      case Continue =>
        if |continues| > 0 {
          EmitGoto(continues[|continues| - 1]);
        }
      case Return(es) => CompileReturn(es);
      case Block(ss) => CompileBlock(ss);
    }

    method EmitGoto(l: int)
      modifies `code, `stackDepth, `depths
      ensures code == old(code) + Flatten([Goto(l)]) && stackDepth == old(stackDepth)
      ensures Traced(old(depths), old(stackDepth), [Goto(l)], depths, stackDepth)
    {
      One(Goto(l), Jmp(l));
      TracedOne(depths, stackDepth, Goto(l));
      Emit(Jmp(l));
    }

    /** The new local comes before the initialiser is compiled. */
    method CompileDecl(x: string, e: Expr)
      modifies this
      ensures code == old(code) + Flatten(LowerStmt(Decl(x, e), old(Cur())).0)
      ensures Cur() == LowerStmt(Decl(x, e), old(Cur())).1 && stackDepth == old(stackDepth)
      ensures Traced(old(depths), old(stackDepth), LowerStmt(Decl(x, e), old(Cur())).0, depths, stackDepth)
    {
      hide Traced, Flatten, LowerExpr;
      var idx := AddLocal(x);
      CompileThen(e, LocalSet(idx));
    }

    method CompileZero(x: string, t: Ty)
      modifies this
      ensures code == old(code) + Flatten(LowerStmt(Stmt.Zero(x, t), old(Cur())).0)
      ensures Cur() == LowerStmt(Stmt.Zero(x, t), old(Cur())).1 && stackDepth == old(stackDepth)
      ensures Traced(old(depths), old(stackDepth), LowerStmt(Stmt.Zero(x, t), old(Cur())).0, depths, stackDepth)
    {
      hide Traced, Flatten;
      var idx := AddLocal(x);
      EmitPlain(ConstI64(0));
      ghost var d, h := depths, stackDepth;
      EmitPlain(LocalSet(idx));
      Joined(old(code), [Plain(ConstI64(0))], [Plain(LocalSet(idx))]);
      TracedJoin(old(depths), old(stackDepth), [Plain(ConstI64(0))], d, h, [Plain(LocalSet(idx))], depths, stackDepth);
      assert [Plain(ConstI64(0))] + [Plain(LocalSet(idx))] == [Plain(ConstI64(0)), Plain(LocalSet(idx))];
    }

    /** The results, left to right. */
    method CompileResults(es: seq<Expr>)
      modifies `code, `stackDepth, `depths, `labelSeq
      ensures var y := LowerExprs(es, scopes, old(labelSeq));
        && code == old(code) + Flatten(y.0) && labelSeq == y.1
        && Traced(old(depths), old(stackDepth), y.0, depths, stackDepth)
      ensures stackDepth == old(stackDepth) + |es|
    {
      hide Traced, Flatten, LowerExpr, LowerExprs;
      ghost var done, l0 := [], labelSeq;
      Nothing(code);
      TracedNone(depths, stackDepth);
      NoExprs(es, scopes, l0);
      for count := 0 to |es|
        invariant stackDepth == old(stackDepth) + count && code == old(code) + Flatten(done)
        invariant Traced(old(depths), old(stackDepth), done, depths, stackDepth)
        invariant var y := LowerExprs(es[count..], scopes, labelSeq);
          LowerExprs(es, scopes, l0) == (done + y.0, y.1)
      {
        ghost var x := LowerExpr(es[count], scopes, labelSeq).0;
        ghost var d, h := depths, stackDepth;
        NextExpr(es, count, scopes, labelSeq, done);
        CompileExpr(es[count]);
        Joined(old(code), done, x);
        TracedJoin(old(depths), old(stackDepth), done, d, h, x, depths, stackDepth);
        done := done + x;
      }
      LastExprs(es, scopes, labelSeq, done);
    }

    method CompileReturn(es: seq<Expr>)
      modifies this
      ensures code == old(code) + Flatten(LowerStmt(Stmt.Return(es), old(Cur())).0)
      ensures Cur() == LowerStmt(Stmt.Return(es), old(Cur())).1 && stackDepth == old(stackDepth)
      ensures Traced(old(depths), old(stackDepth), LowerStmt(Stmt.Return(es), old(Cur())).0, depths, stackDepth)
    {
      hide Traced, Flatten, LowerExprs;
      ghost var y := LowerExprs(es, scopes, labelSeq).0;
      CompileResults(es);
      ghost var d, h := depths, stackDepth;
      EmitPlain(Inst.Return(|es|));
      Joined(old(code), y, [Plain(Inst.Return(|es|))]);
      TracedJoin(old(depths), old(stackDepth), y, d, h, [Plain(Inst.Return(|es|))], depths, stackDepth);
    }

    /** Statements, in the scope they stand in. */
    method CompileList(ss: seq<Stmt>)
      modifies this
      ensures code == old(code) + Flatten(LowerAll(ss, old(Cur())).0)
      ensures Cur() == LowerAll(ss, old(Cur())).1 && stackDepth == old(stackDepth)
      ensures breaks == old(breaks) && continues == old(continues)
      ensures Traced(old(depths), old(stackDepth), LowerAll(ss, old(Cur())).0, depths, stackDepth)
      decreases ss, 0
    {
      hide Traced, Flatten, LowerStmt, LowerAll;
      ghost var st, done := Cur(), [];
      Nothing(code);
      TracedNone(depths, stackDepth);
      NoStmts(ss, st);
      for i := 0 to |ss|
        invariant stackDepth == old(stackDepth) && code == old(code) + Flatten(done)
        invariant breaks == old(breaks) && continues == old(continues)
        invariant Traced(old(depths), old(stackDepth), done, depths, stackDepth)
        invariant var d := LowerAll(ss[i..], Cur());
          LowerAll(ss, st) == (done + d.0, d.1)
      {
        ghost var c := LowerStmt(ss[i], Cur()).0;
        ghost var d, h := depths, stackDepth;
        NextStmt(ss, i, Cur(), done);
        CompileStmt(ss[i]);
        Joined(old(code), done, c);
        TracedJoin(old(depths), old(stackDepth), done, d, h, c, depths, stackDepth);
        done := done + c;
      }
      LastStmts(ss, Cur(), done);
    }

    method CompileBlock(ss: seq<Stmt>)
      modifies this
      ensures code == old(code) + Flatten(LowerBlock(ss, old(Cur())).0)
      ensures Cur() == LowerBlock(ss, old(Cur())).1 && stackDepth == old(stackDepth)
      ensures breaks == old(breaks) && continues == old(continues)
      ensures Traced(old(depths), old(stackDepth), LowerBlock(ss, old(Cur())).0, depths, stackDepth)
      decreases ss, 1
    {
      hide Traced, Flatten, LowerAll;
      PushScope();
      CompileList(ss);
      PopScope();
    }

    /** From the jump over the else branch to the end label. Where one branch returns, the depth is
        that of the other. */
    method CompileElse(s: Stmt, elseLabel: nat, endLabel: nat, branchDepth: int) returns (ghost d: seq<int>)
      requires stackDepth == branchDepth
      modifies this
      ensures var ee := LowerStmt(s, old(Cur()));
        && code == old(code) + [Jmp(endLabel)] + [Label(elseLabel)] + Flatten(ee.0) + [Label(endLabel)] && Cur() == ee.1
        && Traced(old(depths) + [branchDepth] + [branchDepth], branchDepth, ee.0, d, branchDepth)
      ensures depths == d + [branchDepth] && stackDepth == branchDepth
      ensures breaks == old(breaks) && continues == old(continues)
      decreases s, 3
    {
      hide LowerStmt, Flatten, Traced;
      var thenDepth, thenReturns := stackDepth, EndsInReturn(code);
      Emit(Jmp(endLabel));
      stackDepth := branchDepth;
      Emit(Label(elseLabel));
      CompileStmt(s);
      d := depths;
      var elseDepth, elseReturns := stackDepth, EndsInReturn(code);
      if thenReturns && !elseReturns {
        stackDepth := elseDepth;
      } else if !thenReturns && elseReturns {
        stackDepth := thenDepth;
      }
      Emit(Label(endLabel));
    }

    method CompileIf(s: Stmt)
      requires s.If?
      modifies this
      ensures code == old(code) + Flatten(LowerStmt(s, old(Cur())).0)
      ensures Cur() == LowerStmt(s, old(Cur())).1 && stackDepth == old(stackDepth)
      ensures breaks == old(breaks) && continues == old(continues)
      ensures Traced(old(depths), old(stackDepth), LowerStmt(s, old(Cur())).0, depths, stackDepth)
      decreases s, 0
    {
      hide LowerExpr, LowerBlock, LowerStmt, Flatten, Traced;
      IfIs(s, Cur());
      var elseLabel := NewLabel();
      var endLabel := NewLabel();
      ghost var cc := LowerExpr(s.cond, scopes, labelSeq);
      CompileTest(s.cond, elseLabel);
      ghost var d1 := depths;
      var branchDepth := stackDepth;
      ghost var tt := LowerBlock(s.thn, Cur());
      CompileBlock(s.thn);
      ghost var d2 := depths;
      ghost var ee := LowerStmt(s.els, Cur());
      ghost var d4 := CompileElse(s.els, elseLabel, endLabel, branchDepth);
      IfJoined(old(code), cc.0, tt.0, ee.0, elseLabel, endLabel);
      IfTraced(old(depths), old(stackDepth), cc.0, d1, tt.0, d2, d2 + [branchDepth] + [branchDepth], ee.0, d4,
               elseLabel, endLabel);
    }

    /** The condition of a loop, if it has one. */
    method CompileLoopTest(test: Option<Expr>, breakLabel: nat)
      modifies `code, `stackDepth, `depths, `labelSeq
      ensures var cc := Test(test, scopes, old(labelSeq), breakLabel);
        && code == old(code) + Flatten(cc.0) && labelSeq == cc.1
        && Traced(old(depths), old(stackDepth), cc.0, depths, stackDepth)
      ensures stackDepth == old(stackDepth)
    {
      hide LowerExpr, Flatten, Traced;
      Nothing(code);
      TracedNone(depths, stackDepth);
      if test.Some? {
        CompileTest(test.value, breakLabel);
      }
    }

    /** The post of a three-clause loop. */
    method CompilePost(s: Stmt)
      requires s.For?
      modifies this
      ensures var pp := LoopPost(s, old(Cur()));
        && code == old(code) + Flatten(pp.0) && Cur() == pp.1
        && Traced(old(depths), old(stackDepth), pp.0, depths, stackDepth)
      ensures stackDepth == old(stackDepth) && breaks == old(breaks) && continues == old(continues)
      decreases s, 0, 0
    {
      hide LowerStmt, Flatten, Traced;
      Nothing(code);
      TracedNone(depths, stackDepth);
      if IsAssignment(s.init) {
        CompileStmt(s.post);
      }
    }

    /** From the continue label of a loop to its break label. */
    method CompileLoopEnd(s: Stmt, loopLabel: nat, continueLabel: nat, breakLabel: nat) returns (ghost d: seq<int>)
      requires s.For?
      modifies this
      ensures var pp := LoopPost(s, old(Cur()));
        && code == old(code) + [Label(continueLabel)] + Flatten(pp.0) + [Jmp(loopLabel)] + [Label(breakLabel)]
        && Cur() == pp.1
        && Traced(old(depths) + [old(stackDepth)], old(stackDepth), pp.0, d, old(stackDepth))
      ensures depths == d + [old(stackDepth)] + [old(stackDepth)] && stackDepth == old(stackDepth)
      ensures breaks == old(breaks) && continues == old(continues)
      decreases s, 0, 1
    {
      hide LoopPost, Flatten, Traced;
      Emit(Label(continueLabel));
      CompilePost(s);
      d := depths;
      Emit(Jmp(loopLabel));
      Emit(Label(breakLabel));
    }

    /** A loop from its head's label to its break label. */
    method CompileLoop(s: Stmt, loopLabel: nat, continueLabel: nat, breakLabel: nat)
      requires s.For? && continueLabel == loopLabel + 1 && breakLabel == loopLabel + 2
      modifies this
      ensures code == old(code) + Flatten([Loop(loopLabel, breakLabel, LowerLoop(s, loopLabel, old(Cur())).0)])
      ensures Cur() == LowerLoop(s, loopLabel, old(Cur())).1 && stackDepth == old(stackDepth)
      ensures breaks == old(breaks) && continues == old(continues)
      ensures Traced(old(depths), old(stackDepth),
                     [Loop(loopLabel, breakLabel, LowerLoop(s, loopLabel, old(Cur())).0)], depths, stackDepth)
      decreases s, 0, 2
    {
      hide LowerBlock, LowerLoop, LoopPost, Test, Flatten, Traced;
      LoopIs(s, loopLabel, Cur());
      Emit(Label(loopLabel));
      ghost var cc := Test(s.test, scopes, labelSeq, breakLabel).0;
      CompileLoopTest(s.test, breakLabel);
      ghost var d1 := depths;
      ghost var bb := LowerBlock(s.body, Cur()).0;
      CompileBlock(s.body);
      ghost var d2 := depths;
      ghost var pp := LoopPost(s, Cur()).0;
      ghost var d4 := CompileLoopEnd(s, loopLabel, continueLabel, breakLabel);
      LoopJoined(old(code), cc, bb, pp, loopLabel, continueLabel, breakLabel);
      LoopTraced(old(depths), stackDepth, cc, d1, bb, d2, d2 + [stackDepth], pp, d4, loopLabel, continueLabel, breakLabel);
    }

    /** The three forms of loops: three clauses, a condition only, nothing. Only the first
        opens a scope. */
    method CompileFor(s: Stmt)
      requires s.For?
      modifies this
      ensures code == old(code) + Flatten(LowerStmt(s, old(Cur())).0)
      ensures Cur() == LowerStmt(s, old(Cur())).1 && stackDepth == old(stackDepth)
      ensures breaks == old(breaks) && continues == old(continues)
      ensures Traced(old(depths), old(stackDepth), LowerStmt(s, old(Cur())).0, depths, stackDepth)
      decreases s, 1
    {
      hide LowerLoop, LowerStmt, Flatten, Traced;
      ForIs(s, Cur());
      var savedDepth := stackDepth;
      var loopLabel := NewLabel();
      var continueLabel := NewLabel();
      var breakLabel := NewLabel();
      breaks := breaks + [breakLabel];
      continues := continues + [continueLabel];
      Nothing(code);
      ghost var st := Cur();
      if IsAssignment(s.init) {
        PushScope();
        ghost var ii := LowerStmt(s.init, Cur());
        CompileStmt(s.init);
        ghost var d, loop := depths, [Loop(loopLabel, breakLabel, LowerLoop(s, loopLabel, ii.1).0)];
        CompileLoop(s, loopLabel, continueLabel, breakLabel);
        PopScope();
        Joined(old(code), ii.0, loop);
        TracedJoin(old(depths), savedDepth, ii.0, d, savedDepth, loop, depths, savedDepth);
      } else {
        CompileLoop(s, loopLabel, continueLabel, breakLabel);
        PlainLoop(s, loopLabel, st);
        assert [] + [Loop(loopLabel, breakLabel, LowerLoop(s, loopLabel, st).0)]
            == [Loop(loopLabel, breakLabel, LowerLoop(s, loopLabel, st).0)];
      }
      breaks := breaks[..|breaks| - 1];
      continues := continues[..|continues| - 1];
      stackDepth := savedDepth;
    }

    /** The tests of a case: each leaves the tag on the stack. */
    method CompileTests(es: seq<Expr>, bodyLabel: nat)
      modifies `code, `stackDepth, `depths, `labelSeq
      ensures var y := LowerTests(es, bodyLabel, scopes, old(labelSeq));
        code == old(code) + Flatten(y.0) && labelSeq == y.1
      ensures stackDepth == old(stackDepth)
    {
      hide Traced, Flatten, LowerExpr, LowerTests;
      ghost var done, l0 := [], labelSeq;
      Nothing(code);
      NoTests(es, bodyLabel, scopes, l0);
      for i := 0 to |es|
        invariant stackDepth == old(stackDepth) && code == old(code) + Flatten(done)
        invariant var y := LowerTests(es[i..], bodyLabel, scopes, labelSeq);
          LowerTests(es, bodyLabel, scopes, l0) == (done + y.0, y.1)
      {
        ghost var x, c := LowerExpr(es[i], scopes, labelSeq).0, code;
        NextTest(es, i, bodyLabel, scopes, labelSeq, done);
        Emit(Dup);
        CompileExpr(es[i]);
        Emit(Bin(Eq));
        Emit(JmpIf(bodyLabel));
        TestJoined(c, x, bodyLabel);
        ghost var one := [Plain(Dup)] + (x + [Plain(Bin(Eq)), GotoIf(bodyLabel)]);
        Joined(old(code), done, one);
        done := done + one;
      }
      LastTests(es, bodyLabel, scopes, labelSeq, done);
    }

    /** From the label of a body to the jump to the end. */
    method CompileArmBody(body: seq<Stmt>, bodyLabel: nat, endLabel: nat)
      modifies this
      ensures var bb := LowerBlock(body, old(Cur()));
        && code == old(code) + Flatten([Lab(bodyLabel), Plain(Inst.Drop)] + (bb.0 + [Goto(endLabel)])) && Cur() == bb.1
      ensures stackDepth == old(stackDepth) - 1 && breaks == old(breaks) && continues == old(continues)
    {
      hide Traced, Flatten, LowerBlock;
      ghost var bb := LowerBlock(body, Cur());
      Emit(Label(bodyLabel));
      Emit(Inst.Drop);
      CompileBlock(body);
      Emit(Jmp(endLabel));
      ArmJoined(old(code), bb.0, bodyLabel, endLabel);
    }

    /** A case or the default. The depth is reset where the text goes on after a jump: the tag is
        there again. */
    method CompileArm(a: Arm, endLabel: nat)
      modifies this
      ensures code == old(code) + Flatten(LowerArm(a, endLabel, old(Cur())).0)
      ensures Cur() == LowerArm(a, endLabel, old(Cur())).1 && stackDepth == old(stackDepth)
      ensures breaks == old(breaks) && continues == old(continues)
    {
      hide Traced, Flatten, LowerBlock, LowerTests;
      var caseCheckDepth := stackDepth;
      var bodyLabel := NewLabel();
      var nextLabel := NewLabel();
      match a
      case Default(body) =>
        CompileArmBody(body, bodyLabel, endLabel);
        stackDepth := caseCheckDepth;
      case Case(tests, body) =>
        ghost var tt := LowerTests(tests, bodyLabel, scopes, labelSeq);
        CompileTests(tests, bodyLabel);
        ghost var bb := LowerBlock(body, Cur()).0;
        Emit(Jmp(nextLabel));
        stackDepth := caseCheckDepth;
        ghost var c := code;
        CompileArmBody(body, bodyLabel, endLabel);
        stackDepth := caseCheckDepth;
        Emit(Label(nextLabel));
        CaseJoined(old(code), tt.0, bb, bodyLabel, endLabel);
    }

    /** A switch with a tag that is no string. */
    method CompileSwitch(tag: Expr, arms: seq<Arm>)
      modifies this
      ensures code == old(code) + Flatten(LowerSwitch(tag, arms, old(Cur())).0)
      ensures Cur() == LowerSwitch(tag, arms, old(Cur())).1 && stackDepth == old(stackDepth)
      ensures breaks == old(breaks) && continues == old(continues)
    {
      hide Traced, Flatten, LowerExpr, LowerArm, LowerArms;
      var savedDepth := stackDepth;
      var endLabel := NewLabel();
      ghost var cc := LowerExpr(tag, scopes, labelSeq);
      CompileExpr(tag);
      ghost var st, done := Cur(), [];
      var caseCheckDepth := stackDepth;
      ghost var c := code;
      Nothing(c);
      ArmsAhead(arms, endLabel, st);
      for i := 0 to |arms|
        invariant stackDepth == caseCheckDepth && code == c + Flatten(done)
        invariant breaks == old(breaks) && continues == old(continues)
        invariant var d := LowerArms(arms[i..], endLabel, Cur());
          LowerArms(arms, endLabel, st) == (done + d.0, d.1)
      {
        ghost var x := LowerArm(arms[i], endLabel, Cur()).0;
        NextArm(arms, i, endLabel, Cur(), done);
        CompileArm(arms[i], endLabel);
        Joined(c, done, x);
        done := done + x;
      }
      LastArms(arms, endLabel, Cur(), done);
      Emit(Inst.Drop);
      Emit(Label(endLabel));
      stackDepth := savedDepth;
      SwitchJoined(old(code), cc.0, done, endLabel);
    }

    /** Parameters are the first locals of a function. */
    method EnterFunc(params: seq<string>, ghost f: Func)
      requires f.params == params
      modifies this
      ensures code == [] && depths == [] && stackDepth == 0 && Cur() == Entry(f, old(labelSeq))
    {
      code, scopes, nlocals, breaks, continues, depths := [], [], 0, [], [], [];
      PushScope();
      assert params[..0] == [];
      for i := 0 to |params|
        invariant Cur() == St([ParamScope(params[..i])], i, old(labelSeq), [], []) && code == [] && depths == []
      {
        assert params[..i + 1][..i] == params[..i];
        var _ := AddLocal(params[i]);
      }
      assert params[..|params|] == params;
      stackDepth := 0;
    }

    /** A whole function: parameters are the first locals, and the code ends in a return. */
    method CompileFunc(f: Func)
      modifies this
      ensures code == Flatten(LowerFunc(f, old(labelSeq)).0)
      ensures nlocals == LowerFunc(f, old(labelSeq)).1 && labelSeq == LowerFunc(f, old(labelSeq)).2
      ensures depths == Depths.Depths(LowerFunc(f, old(labelSeq)).0, 0).0
    {
      hide Traced, Flatten, LowerBlock;
      EnterFunc(f.params, f);
      CompileBlock(f.body);
      ghost var body, d := LowerBlock(f.body, Entry(f, old(labelSeq))).0, depths;
      assert code == Flatten(body);
      if |code| == 0 || !code[|code| - 1].Return? {
        EmitPlain(Inst.Return(0));
        FlattenAppend(body, [Plain(Inst.Return(0))]);
        TracedJoin([], 0, body, d, 0, [Plain(Inst.Return(0))], depths, stackDepth);
      }
      TracedIs(LowerFunc(f, old(labelSeq)).0, depths, stackDepth);
      PopScope();
    }

    /** The same for a function whose body is statements, a switch, and statements. */
    method CompileSwitchFunc(f: SwitchFunc)
      modifies this
      ensures code == Flatten(ItemsOf(f, old(labelSeq))) && nlocals == SlotsOf(f, old(labelSeq))
    {
      hide Traced, Flatten, LowerAll, LowerSwitch;
      ghost var l := labelSeq;
      EnterFunc(f.params, Shell(f));
      PushScope();
      CompileList(f.before);
      CompileSwitch(f.tag, f.arms);
      CompileList(f.after);
      PartsJoined(f, l);
      CloseFunc();
      WholeJoined(f, l);
      PopScope();
      PopScope();
    }

    /** The added return of a function that does not end in one. */
    method CloseFunc()
      modifies `code, `stackDepth, `depths
      ensures code == old(code) + if EndsInReturn(old(code)) then [] else [Inst.Return(0)]
    {
      if |code| == 0 || !code[|code| - 1].Return? {
        Emit(Inst.Return(0));
      }
    }
  }

  lemma PartsJoined(f: SwitchFunc, l: nat)
    ensures [] + Flatten(LowerAll(f.before, AtStart(f, l)).0)
            + Flatten(LowerSwitch(f.tag, f.arms, LowerAll(f.before, AtStart(f, l)).1).0)
            + Flatten(LowerAll(f.after, LowerSwitch(f.tag, f.arms, LowerAll(f.before, AtStart(f, l)).1).1).0)
         == Flatten(BodyOf(f, l))
  {
    hide Flatten, LowerAll, LowerSwitch;
    var a, b, c := Before(f, l).0, Middle(f, l).0, After(f, l).0;
    FlattenAppend(a, b + c);
    FlattenAppend(b, c);
  }

  lemma WholeJoined(f: SwitchFunc, l: nat)
    ensures var body := Flatten(BodyOf(f, l));
      Flatten(ItemsOf(f, l)) == body + if EndsInReturn(body) then [] else [Inst.Return(0)]
  {
    hide Before, Middle, After;
    FlattenAppend(BodyOf(f, l), LastReturn(f, l));
    assert BodyOf(f, l) + LastReturn(f, l) == ItemsOf(f, l);
    One(Plain(Inst.Return(0)), Inst.Return(0));
  }

  lemma TracedIs(items: seq<Item>, d: seq<int>, h: int)
    requires Traced([], 0, items, d, h)
    ensures d == Depths.Depths(items, 0).0
  {
  }

  lemma NoExprs(es: seq<Expr>, sc: Scopes, l: nat)
    ensures es[0..] == es && var y := LowerExprs(es, sc, l); y == ([] + y.0, y.1)
  {
    assert [] + LowerExprs(es, sc, l).0 == LowerExprs(es, sc, l).0;
  }

  lemma NextExpr(es: seq<Expr>, i: nat, sc: Scopes, l: nat, done: seq<Item>)
    requires i < |es|
    ensures var x := LowerExpr(es[i], sc, l);
      var y := LowerExprs(es[i + 1..], sc, x.1);
      (done + LowerExprs(es[i..], sc, l).0, LowerExprs(es[i..], sc, l).1) == (done + x.0 + y.0, y.1)
  {
    assert es[i..][1..] == es[i + 1..];
    var x := LowerExpr(es[i], sc, l);
    var y := LowerExprs(es[i + 1..], sc, x.1);
    assert done + (x.0 + y.0) == done + x.0 + y.0;
  }

  lemma LastExprs(es: seq<Expr>, sc: Scopes, l: nat, done: seq<Item>)
    ensures (done + LowerExprs(es[|es|..], sc, l).0, LowerExprs(es[|es|..], sc, l).1) == (done, l)
  {
    assert es[|es|..] == [] && done + [] == done;
  }

  lemma NoStmts(ss: seq<Stmt>, st: St)
    ensures ss[0..] == ss && var y := LowerAll(ss, st); y == ([] + y.0, y.1)
  {
    assert [] + LowerAll(ss, st).0 == LowerAll(ss, st).0;
  }

  lemma NextStmt(ss: seq<Stmt>, i: nat, st: St, done: seq<Item>)
    requires i < |ss|
    ensures var c := LowerStmt(ss[i], st);
      var d := LowerAll(ss[i + 1..], c.1);
      (done + LowerAll(ss[i..], st).0, LowerAll(ss[i..], st).1) == (done + c.0 + d.0, d.1)
  {
    hide LowerStmt;
    assert ss[i..][1..] == ss[i + 1..];
    var c := LowerStmt(ss[i], st);
    var d := LowerAll(ss[i + 1..], c.1);
    assert done + (c.0 + d.0) == done + c.0 + d.0;
  }

  lemma LastStmts(ss: seq<Stmt>, st: St, done: seq<Item>)
    ensures (done + LowerAll(ss[|ss|..], st).0, LowerAll(ss[|ss|..], st).1) == (done, st)
  {
    assert ss[|ss|..] == [] && done + [] == done;
  }

  lemma IfTraced(d0: seq<int>, h: int, cc: seq<Item>, d1: seq<int>, tt: seq<Item>, d2: seq<int>, d3: seq<int>,
        ee: seq<Item>,
                 d4: seq<int>, elseL: int, endL: int)
    requires Traced(d0, h, cc + [GotoIfNot(elseL)], d1, h) && Traced(d1, h, tt, d2, h)
    requires d3 == d2 + [h] + [h] && Traced(d3, h, ee, d4, h)
    ensures Traced(d0, h, cc + ([GotoIfNot(elseL)] + (tt + ([Goto(endL), Lab(elseL)] + (ee + [Lab(endL)])))),
             d4 + [h], h)
  {
    TracedOne(d2, h, Goto(endL));
    TracedOne(d2 + [h], h, Lab(elseL));
    TracedOne(d4, h, Lab(endL));
    hide Traced;
    var a := cc + [GotoIfNot(elseL)];
    TracedJoin(d0, h, a, d1, h, tt, d2, h);
    TracedJoin(d0, h, a + tt, d2, h, [Goto(endL)], d2 + [h], h);
    TracedJoin(d0, h, a + tt + [Goto(endL)], d2 + [h], h, [Lab(elseL)], d3, h);
    TracedJoin(d0, h, a + tt + [Goto(endL)] + [Lab(elseL)], d3, h, ee, d4, h);
    TracedJoin(d0, h, a + tt + [Goto(endL)] + [Lab(elseL)] + ee, d4, h, [Lab(endL)], d4 + [h], h);
    IfRegroup(cc, [GotoIfNot(elseL)], tt, Goto(endL), Lab(elseL), ee, [Lab(endL)]);
  }

  lemma LoopTraced(d: seq<int>, h: int, cc: seq<Item>, d1: seq<int>, bb: seq<Item>, d2: seq<int>, d3: seq<int>,
        pp: seq<Item>,
                   d4: seq<int>, l: int, k: int, b: int)
    requires Traced(d + [h], h, cc, d1, h) && Traced(d1, h, bb, d2, h) && d3 == d2 + [h] && Traced(d3, h, pp, d4, h)
    ensures Traced(d, h, [Loop(l, b, cc + (bb + ([Lab(k)] + (pp + [Goto(l)]))))], d4 + [h] + [h], h)
  {
    TracedOne(d2, h, Lab(k));
    TracedOne(d4, h, Goto(l));
    hide Traced;
    var d0 := d + [h];
    TracedJoin(d0, h, cc, d1, h, bb, d2, h);
    TracedJoin(d0, h, cc + bb, d2, h, [Lab(k)], d3, h);
    TracedJoin(d0, h, cc + bb + [Lab(k)], d3, h, pp, d4, h);
    TracedJoin(d0, h, cc + bb + [Lab(k)] + pp, d4, h, [Goto(l)], d4 + [h], h);
    BodyRegroup(cc, bb, [Lab(k)], pp, [Goto(l)]);
    TracedLoop(d, h, Loop(l, b, cc + (bb + ([Lab(k)] + (pp + [Goto(l)])))), d4 + [h], h);
  }

  /** The post of a loop, if it is compiled at all. */
  function LoopPost(s: Stmt, st: St): (seq<Item>, St)
    requires s.For?
  {
    if IsAssignment(s.init) then LowerStmt(s.post, st) else ([], st)
  }

  lemma LoopIs(s: Stmt, l: nat, st: St)
    requires s.For?
    ensures var cc := Test(s.test, st.scopes, st.l, l + 2);
      var bb := LowerBlock(s.body, Labelled(st, cc.1));
      var pp := LoopPost(s, bb.1);
      LowerLoop(s, l, st) == (cc.0 + (bb.0 + ([Lab(l + 1)] + (pp.0 + [Goto(l)]))), pp.1)
  {
    hide LowerBlock, LowerStmt, Test;
  }

  lemma Nothing(c: seq<Inst>)
    ensures c + Flatten([]) == c
  {
  }

  lemma IfJoined(c: seq<Inst>, cc: seq<Item>, tt: seq<Item>, ee: seq<Item>, elseL: int, endL: int)
    ensures c + Flatten(cc + [GotoIfNot(elseL)]) + Flatten(tt) + [Jmp(endL)] + [Label(elseL)] + Flatten(ee) + [Label(endL)]
         == c + Flatten(cc + ([GotoIfNot(elseL)] + (tt + ([Goto(endL), Lab(elseL)] + (ee + [Lab(endL)])))))
  {
    One(Goto(endL), Jmp(endL));
    One(Lab(elseL), Label(elseL));
    One(Lab(endL), Label(endL));
    hide Flatten, FlatItem;
    var a := cc + [GotoIfNot(elseL)];
    Joined(c, a, tt);
    Joined(c, a + tt, [Goto(endL)]);
    Joined(c, a + tt + [Goto(endL)], [Lab(elseL)]);
    Joined(c, a + tt + [Goto(endL)] + [Lab(elseL)], ee);
    Joined(c, a + tt + [Goto(endL)] + [Lab(elseL)] + ee, [Lab(endL)]);
    IfRegroup(cc, [GotoIfNot(elseL)], tt, Goto(endL), Lab(elseL), ee, [Lab(endL)]);
  }

  lemma IfRegroup(a: seq<Item>, b: seq<Item>, c: seq<Item>, d: Item, e: Item, f: seq<Item>, g: seq<Item>)
    ensures a + b + c + [d] + [e] + f + g == a + (b + (c + ([d, e] + (f + g))))
  {
    assert [d] + [e] == [d, e];
    assert a + b + c + [d] + [e] == a + b + c + [d, e];
  }

  lemma LoopJoined(c: seq<Inst>, cc: seq<Item>, bb: seq<Item>, pp: seq<Item>, l: int, k: int, b: int)
    ensures c + [Label(l)] + Flatten(cc) + Flatten(bb) + [Label(k)] + Flatten(pp) + [Jmp(l)] + [Label(b)]
         == c + Flatten([Loop(l, b, cc + (bb + ([Lab(k)] + (pp + [Goto(l)]))))])
  {
    hide Flatten, FlatItem;
    var body := cc + (bb + ([Lab(k)] + (pp + [Goto(l)])));
    LoopCode(Loop(l, b, body));
    BodyJoined(c + [Label(l)], cc, bb, pp, l, k, body);
    Around(c, [Label(l)], Flatten(body), [Label(b)]);
  }

  lemma Around(c: seq<Inst>, h: seq<Inst>, f: seq<Inst>, t: seq<Inst>)
    ensures c + h + f + t == c + (h + f + t)
  {
  }

  lemma BodyJoined(d: seq<Inst>, cc: seq<Item>, bb: seq<Item>, pp: seq<Item>, l: int, k: int, body: seq<Item>)
    requires body == cc + (bb + ([Lab(k)] + (pp + [Goto(l)])))
    ensures d + Flatten(cc) + Flatten(bb) + [Label(k)] + Flatten(pp) + [Jmp(l)] == d + Flatten(body)
  {
    hide Flatten, FlatItem;
    LabGoto(k, l);
    var a := cc + bb;
    Joined(d, cc, bb);
    Joined(d, a, [Lab(k)]);
    TailJoined(d, a + [Lab(k)], pp, [Goto(l)]);
    BodyRegroup(cc, bb, [Lab(k)], pp, [Goto(l)]);
  }

  lemma TailJoined(d: seq<Inst>, a: seq<Item>, b: seq<Item>, e: seq<Item>)
    ensures d + Flatten(a) + Flatten(b) + Flatten(e) == d + Flatten(a + b + e)
  {
    hide Flatten;
    Joined(d, a, b);
    Joined(d, a + b, e);
  }

  lemma LabGoto(k: int, l: int)
    ensures Flatten([Lab(k)]) == [Label(k)] && Flatten([Goto(l)]) == [Jmp(l)]
  {
    One(Lab(k), Label(k));
    One(Goto(l), Jmp(l));
  }

  lemma BodyRegroup(a: seq<Item>, b: seq<Item>, c: seq<Item>, d: seq<Item>, e: seq<Item>)
    ensures a + b + c + d + e == a + (b + (c + (d + e)))
  {
  }

  lemma ShortIs(e: Expr, onTrue: bool, a: Expr, b: Expr, sc: Scopes, l: nat)
    requires e == if onTrue then OrElse(a, b) else AndAlso(a, b)
    ensures var x := LowerExpr(a, sc, l + 2);
      var y := LowerExpr(b, sc, x.1);
      LowerExpr(e, sc, l) == (x.0 + [Short(onTrue, l, l + 1, FromBool(onTrue), y.0)], y.1)
  {
  }

  lemma ShortJoined(c: seq<Inst>, a: seq<Item>, it: Item, code: seq<Inst>)
    requires it.Short?
    requires code == c + Flatten(a) + [if it.onTrue then JmpIf(it.tgt) else JmpIfNot(it.tgt)] + Flatten(it.rhs)
                     + [Jmp(it.end)] + [Label(it.tgt)] + [ConstBool(it.k)] + [Label(it.end)]
    ensures code == c + Flatten(a + [it])
  {
    ShortCode(it);
    Joined(c, a, [it]);
    hide Flatten, FlatItem;
    assert code == c + Flatten(a) + Flatten([it]);
  }

  // ----- switches -----

  lemma NoTests(es: seq<Expr>, b: int, sc: Scopes, l: nat)
    ensures es[0..] == es && var y := LowerTests(es, b, sc, l); y == ([] + y.0, y.1)
  {
    assert [] + LowerTests(es, b, sc, l).0 == LowerTests(es, b, sc, l).0;
  }

  lemma NextTest(es: seq<Expr>, i: nat, b: int, sc: Scopes, l: nat, done: seq<Item>)
    requires i < |es|
    ensures var x := LowerExpr(es[i], sc, l);
      var y := LowerTests(es[i + 1..], b, sc, x.1);
      (done + LowerTests(es[i..], b, sc, l).0, LowerTests(es[i..], b, sc, l).1)
      == (done + ([Plain(Dup)] + (x.0 + [Plain(Bin(Eq)), GotoIf(b)])) + y.0, y.1)
  {
    assert es[i..][1..] == es[i + 1..];
    var x := LowerExpr(es[i], sc, l);
    var y := LowerTests(es[i + 1..], b, sc, x.1);
    TestRegroup([Plain(Dup)], x.0, [Plain(Bin(Eq)), GotoIf(b)], y.0);
    assert done + ([Plain(Dup)] + (x.0 + [Plain(Bin(Eq)), GotoIf(b)]) + y.0)
        == done + ([Plain(Dup)] + (x.0 + [Plain(Bin(Eq)), GotoIf(b)])) + y.0;
  }

  lemma LastTests(es: seq<Expr>, b: int, sc: Scopes, l: nat, done: seq<Item>)
    ensures (done + LowerTests(es[|es|..], b, sc, l).0, LowerTests(es[|es|..], b, sc, l).1) == (done, l)
  {
    assert es[|es|..] == [] && done + [] == done;
  }

  lemma TestJoined(c: seq<Inst>, x: seq<Item>, b: int)
    ensures c + [Dup] + Flatten(x) + [Bin(Eq)] + [JmpIf(b)]
         == c + Flatten([Plain(Dup)] + (x + [Plain(Bin(Eq)), GotoIf(b)]))
  {
    One(Plain(Dup), Dup);
    One(Plain(Bin(Eq)), Bin(Eq));
    One(GotoIf(b), JmpIf(b));
    hide Flatten, FlatItem;
    var d := [Plain(Dup)] + x;
    Joined(c, [Plain(Dup)], x);
    Joined(c, d, [Plain(Bin(Eq))]);
    Joined(c, d + [Plain(Bin(Eq))], [GotoIf(b)]);
    assert d + [Plain(Bin(Eq))] + [GotoIf(b)] == [Plain(Dup)] + (x + [Plain(Bin(Eq)), GotoIf(b)]);
  }

  /** From the label of a body to the jump to the end. */
  lemma ArmJoined(c: seq<Inst>, bb: seq<Item>, l: nat, endL: nat)
    ensures c + [Label(l)] + [Inst.Drop] + Flatten(bb) + [Jmp(endL)]
         == c + Flatten([Lab(l), Plain(Inst.Drop)] + (bb + [Goto(endL)]))
  {
    One(Lab(l), Label(l));
    One(Plain(Inst.Drop), Inst.Drop);
    One(Goto(endL), Jmp(endL));
    hide Flatten, FlatItem;
    var d := [Lab(l)] + [Plain(Inst.Drop)];
    Joined(c, [Lab(l)], [Plain(Inst.Drop)]);
    Joined(c, d, bb);
    Joined(c, d + bb, [Goto(endL)]);
    assert d + bb + [Goto(endL)] == [Lab(l), Plain(Inst.Drop)] + (bb + [Goto(endL)]);
  }

  lemma CaseJoined(c: seq<Inst>, tt: seq<Item>, bb: seq<Item>, l: nat, endL: nat)
    ensures c + Flatten(tt) + [Jmp(l + 1)] + Flatten([Lab(l), Plain(Inst.Drop)] + (bb + [Goto(endL)])) + [Label(l + 1)]
         == c + Flatten(tt + ([Goto(l + 1), Lab(l), Plain(Inst.Drop)] + (bb + [Goto(endL), Lab(l + 1)])))
  {
    hide Flatten, FlatItem;
    LabGoto(l + 1, l + 1);
    var body := [Lab(l), Plain(Inst.Drop)] + (bb + [Goto(endL)]);
    Joined(c, tt, [Goto(l + 1)]);
    TailJoined(c, tt + [Goto(l + 1)], body, [Lab(l + 1)]);
    Switches.CaseRegroup(tt, bb, l, endL);
    Grouped(tt, [Goto(l + 1)], body, [Lab(l + 1)]);
  }

  lemma Grouped(a: seq<Item>, b: seq<Item>, c: seq<Item>, d: seq<Item>)
    ensures a + b + c + d == a + (b + (c + d))
  {
  }

  lemma ArmsAhead(arms: seq<Arm>, endL: int, st: St)
    ensures arms[0..] == arms && var y := LowerArms(arms, endL, st); y == ([] + y.0, y.1)
  {
    assert [] + LowerArms(arms, endL, st).0 == LowerArms(arms, endL, st).0;
  }

  lemma NextArm(arms: seq<Arm>, i: nat, endL: int, st: St, done: seq<Item>)
    requires i < |arms|
    ensures var x := LowerArm(arms[i], endL, st);
      var y := LowerArms(arms[i + 1..], endL, x.1);
      (done + LowerArms(arms[i..], endL, st).0, LowerArms(arms[i..], endL, st).1) == (done + x.0 + y.0, y.1)
  {
    hide LowerArm;
    assert arms[i..][1..] == arms[i + 1..];
    var x := LowerArm(arms[i], endL, st);
    var y := LowerArms(arms[i + 1..], endL, x.1);
    assert done + (x.0 + y.0) == done + x.0 + y.0;
  }

  lemma LastArms(arms: seq<Arm>, endL: int, st: St, done: seq<Item>)
    ensures (done + LowerArms(arms[|arms|..], endL, st).0, LowerArms(arms[|arms|..], endL, st).1) == (done, st)
  {
    assert arms[|arms|..] == [] && done + [] == done;
  }

  lemma SwitchJoined(c: seq<Inst>, cc: seq<Item>, aa: seq<Item>, endL: nat)
    ensures c + Flatten(cc) + Flatten(aa) + [Inst.Drop] + [Label(endL)] == c + Flatten(cc + (aa + Switches.Tail(endL)))
  {
    One(Plain(Inst.Drop), Inst.Drop);
    One(Lab(endL), Label(endL));
    hide Flatten, FlatItem;
    Joined(c, cc, aa);
    Joined(c, cc + aa, [Plain(Inst.Drop)]);
    Joined(c, cc + aa + [Plain(Inst.Drop)], [Lab(endL)]);
    assert cc + aa + [Plain(Inst.Drop)] + [Lab(endL)] == cc + (aa + Switches.Tail(endL));
  }
}
