/** The literals of a function that fit an int of the target, and the constants they lower to. */
module Literals {
  import opened Ir
  import opened Shape
  import opened Ast
  import opened Lower

  /** Every literal is below lim. */
  predicate Below(e: Expr, lim: int) {
    match e
    case Lit(n) => n < lim
    case BoolLit(_) => true
    case Var(_) => true
    case Binary(_, a, b) => Below(a, lim) && Below(b, lim)
    case AndAlso(a, b) => Below(a, lim) && Below(b, lim)
    case OrElse(a, b) => Below(a, lim) && Below(b, lim)
    case Negate(a) => Below(a, lim)
    case Invert(a) => Below(a, lim)
  }

  predicate StmtBelow(s: Stmt, lim: int)
    decreases s, 1
  {
    match s
    case Decl(_, e) => Below(e, lim)
    case Assign(_, e) => Below(e, lim)
    case OpAssign(_, _, e) => Below(e, lim)
    case Eval(e) => Below(e, lim)
    case If(c, t, e) => Below(c, lim) && AllBelow(t, lim) && StmtBelow(e, lim)
    case For(init, test, post, body) =>
      && StmtBelow(init, lim) && (test.Some? ==> Below(test.value, lim))
      && StmtBelow(post, lim) && AllBelow(body, lim)
    case Return(es) => forall i :: 0 <= i < |es| ==> Below(es[i], lim)
    case Block(ss) => AllBelow(ss, lim)
    case _ => true
  }

  predicate AllBelow(ss: seq<Stmt>, lim: int)
    decreases ss, 0
  {
    ss == [] || (StmtBelow(ss[0], lim) && AllBelow(ss[1..], lim))
  }

  /** Every literal is an int of the machine, as Go demands of a constant of type int. */
  predicate LitsFit(m: Machine, f: Func) {
    AllBelow(f.body, Modulus(m) / 2)
  }

  // ----- the constants of the code -----

  ghost predicate ItemsBelow(items: seq<Item>, lim: int) {
    ConstsBelow(Flatten(items), lim)
  }

  lemma Joined(a: seq<Item>, b: seq<Item>, lim: int)
    requires ItemsBelow(a, lim) && ItemsBelow(b, lim)
    ensures ItemsBelow(a + b, lim)
  {
    hide Flatten;
    FlattenAppend(a, b);
  }

  lemma One(it: Item, lim: int)
    requires !it.Loop? && !it.Short? && (it.Plain? && it.op.ConstI64? ==> 0 <= it.op.val < lim)
    ensures ItemsBelow([it], lim)
  {
    assert [it][1..] == [];
  }

  lemma Operand(it: Item, lim: int)
    requires it.Short? && ItemsBelow(it.rhs, lim)
    ensures ItemsBelow([it], lim)
  {
    assert [it][1..] == [];
  }

  lemma Body(it: Item, lim: int)
    requires it.Loop? && ItemsBelow(it.body, lim)
    ensures ItemsBelow([it], lim)
  {
    assert [it][1..] == [];
  }

  lemma {:induction false} ExprConsts(e: Expr, sc: Scopes, l: nat, lim: int)
    requires Below(e, lim)
    ensures ItemsBelow(LowerExpr(e, sc, l).0, lim)
    decreases e
  {
    hide ItemsBelow;
    match e
    case Lit(n) => One(Plain(ConstI64(n)), lim);
    case BoolLit(b) => One(Plain(ConstBool(FromBool(b))), lim);
    case Var(x) => One(Plain(LocalGet(Lookup(sc, x))), lim);
    case Binary(op, a, b) =>
      var x := LowerExpr(a, sc, l);
      ExprConsts(a, sc, l, lim);
      ExprConsts(b, sc, x.1, lim);
      One(Plain(Bin(op)), lim);
      Joined(LowerExpr(b, sc, x.1).0, [Plain(Bin(op))], lim);
      Joined(x.0, LowerExpr(b, sc, x.1).0 + [Plain(Bin(op))], lim);
    case AndAlso(a, b) =>
      var x := LowerExpr(a, sc, l + 2);
      ExprConsts(a, sc, l + 2, lim);
      ExprConsts(b, sc, x.1, lim);
      ShortConsts(x.0, Short(false, l, l + 1, 0, LowerExpr(b, sc, x.1).0), lim);
    case OrElse(a, b) =>
      var x := LowerExpr(a, sc, l + 2);
      ExprConsts(a, sc, l + 2, lim);
      ExprConsts(b, sc, x.1, lim);
      ShortConsts(x.0, Short(true, l, l + 1, 1, LowerExpr(b, sc, x.1).0), lim);
    case Negate(a) =>
      ExprConsts(a, sc, l, lim);
      One(Plain(Neg), lim);
      Joined(LowerExpr(a, sc, l).0, [Plain(Neg)], lim);
    case Invert(a) =>
      ExprConsts(a, sc, l, lim);
      One(Plain(Not), lim);
      Joined(LowerExpr(a, sc, l).0, [Plain(Not)], lim);
  }

  lemma ShortConsts(x: seq<Item>, it: Item, lim: int)
    requires it.Short? && ItemsBelow(x, lim) && ItemsBelow(it.rhs, lim)
    ensures ItemsBelow(x + [it], lim)
  {
    hide ItemsBelow;
    Operand(it, lim);
    Joined(x, [it], lim);
  }

  lemma {:induction false} ExprsConsts(es: seq<Expr>, sc: Scopes, l: nat, lim: int)
    requires forall i :: 0 <= i < |es| ==> Below(es[i], lim)
    ensures ItemsBelow(LowerExprs(es, sc, l).0, lim)
  {
    if es != [] {
      var x := LowerExpr(es[0], sc, l);
      ExprConsts(es[0], sc, l, lim);
      ExprsConsts(es[1..], sc, x.1, lim);
      Joined(x.0, LowerExprs(es[1..], sc, x.1).0, lim);
    }
  }

  /** An expression and one more item. */
  lemma ExprThen(e: Expr, sc: Scopes, l: nat, it: Item, lim: int)
    requires Below(e, lim) && !it.Loop? && !it.Short? && (it.Plain? ==> !it.op.ConstI64?)
    ensures ItemsBelow(LowerExpr(e, sc, l).0 + [it], lim)
  {
    hide ItemsBelow;
    ExprConsts(e, sc, l, lim);
    One(it, lim);
    Joined(LowerExpr(e, sc, l).0, [it], lim);
  }

  lemma {:induction false} StmtConsts(s: Stmt, st: St, lim: int)
    requires StmtBelow(s, lim) && lim > 1
    ensures ItemsBelow(LowerStmt(s, st).0, lim)
    decreases s, 1
  {
    hide ItemsBelow, LowerExpr;
    match s
    case Decl(x, e) => ExprThen(e, Local(st, x).scopes, st.l, Plain(LocalSet(st.n)), lim);
    case Zero(x, _) =>
      One(Plain(ConstI64(0)), lim);
      One(Plain(LocalSet(st.n)), lim);
      Joined([Plain(ConstI64(0))], [Plain(LocalSet(st.n))], lim);
      assert [Plain(ConstI64(0))] + [Plain(LocalSet(st.n))] == [Plain(ConstI64(0)), Plain(LocalSet(st.n))];
    case Assign(x, e) => ExprThen(e, st.scopes, st.l, StoreTo(st.scopes, x), lim);
    case OpAssign(x, op, e) => ExprThen(Binary(op, Var(x), e), st.scopes, st.l, StoreTo(st.scopes, x), lim);
    case Inc(x) => ExprThen(Binary(Add, Var(x), Lit(1)), st.scopes, st.l, StoreTo(st.scopes, x), lim);
    case Eval(e) => ExprThen(e, st.scopes, st.l, Plain(Inst.Drop), lim);
    case If(c, t, e) => IfConsts(s, st, lim);
    case For(_, _, _, _) => ForConsts(s, st, lim);
    case Return(es) =>
      ExprsConsts(es, st.scopes, st.l, lim);
      One(Plain(Inst.Return(|es|)), lim);
      Joined(LowerExprs(es, st.scopes, st.l).0, [Plain(Inst.Return(|es|))], lim);
    case Block(ss) => AllConsts(ss, Push(st), lim);
    case Nop => Nothing(lim);
    case Break =>
      Nothing(lim);
      if st.brks != [] { One(Goto(st.brks[|st.brks| - 1]), lim); }
    case Continue =>
      Nothing(lim);
      if st.conts != [] { One(Goto(st.conts[|st.conts| - 1]), lim); }
  }

  lemma Nothing(lim: int)
    ensures ItemsBelow([], lim)
  {
  }

  lemma {:induction false} IfConsts(s: Stmt, st: St, lim: int)
    requires s.If? && StmtBelow(s, lim) && lim > 1
    ensures ItemsBelow(LowerStmt(s, st).0, lim)
    decreases s, 0
  {
    hide ItemsBelow, LowerExpr;
    var cc := LowerExpr(s.cond, st.scopes, st.l + 2);
    var tt := LowerAll(s.thn, Push(Labelled(st, cc.1)));
    var ee := LowerStmt(s.els, Pop(tt.1));
    ExprConsts(s.cond, st.scopes, st.l + 2, lim);
    AllConsts(s.thn, Push(Labelled(st, cc.1)), lim);
    StmtConsts(s.els, Pop(tt.1), lim);
    One(Lab(st.l + 1), lim);
    Joined(ee.0, [Lab(st.l + 1)], lim);
    One(Goto(st.l + 1), lim);
    One(Lab(st.l), lim);
    Joined([Goto(st.l + 1)], [Lab(st.l)], lim);
    assert [Goto(st.l + 1)] + [Lab(st.l)] == [Goto(st.l + 1), Lab(st.l)];
    var r := ee.0 + [Lab(st.l + 1)];
    Joined([Goto(st.l + 1), Lab(st.l)], r, lim);
    Joined(tt.0, [Goto(st.l + 1), Lab(st.l)] + r, lim);
    One(GotoIfNot(st.l), lim);
    Joined([GotoIfNot(st.l)], tt.0 + ([Goto(st.l + 1), Lab(st.l)] + r), lim);
    Joined(cc.0, [GotoIfNot(st.l)] + (tt.0 + ([Goto(st.l + 1), Lab(st.l)] + r)), lim);
  }

  lemma {:induction false} ForConsts(s: Stmt, st: St, lim: int)
    requires s.For? && StmtBelow(s, lim) && lim > 1
    ensures ItemsBelow(LowerStmt(s, st).0, lim)
    decreases s, 0, 1
  {
    hide ItemsBelow, LowerExpr, LowerLoop;
    Nothing(lim);
    var st0 := Push(st.(l := st.l + 3, brks := st.brks + [st.l + 2], conts := st.conts + [st.l + 1]));
    var ii := if IsAssignment(s.init) then LowerStmt(s.init, st0) else ([], st0);
    StmtConsts(s.init, st0, lim);
    LoopConsts(s, st.l, ii.1, lim);
    var it := Loop(st.l, st.l + 2, LowerLoop(s, st.l, ii.1).0);
    Body(it, lim);
    Joined(ii.0, [it], lim);
  }

  lemma {:induction false} LoopConsts(s: Stmt, l: int, st: St, lim: int)
    requires s.For? && StmtBelow(s, lim) && lim > 1
    ensures ItemsBelow(LowerLoop(s, l, st).0, lim)
    decreases s, 0, 0
  {
    hide ItemsBelow, LowerExpr;
    Nothing(lim);
    var cc := Test(s.test, st.scopes, st.l, l + 2);
    if s.test.Some? {
      ExprThen(s.test.value, st.scopes, st.l, GotoIfNot(l + 2), lim);
    }
    var bb := LowerBlock(s.body, Labelled(st, cc.1));
    AllConsts(s.body, Push(Labelled(st, cc.1)), lim);
    var pp := if IsAssignment(s.init) then LowerStmt(s.post, bb.1) else ([], bb.1);
    StmtConsts(s.post, bb.1, lim);
    One(Goto(l), lim);
    Joined(pp.0, [Goto(l)], lim);
    One(Lab(l + 1), lim);
    Joined([Lab(l + 1)], pp.0 + [Goto(l)], lim);
    Joined(bb.0, [Lab(l + 1)] + (pp.0 + [Goto(l)]), lim);
    Joined(cc.0, bb.0 + ([Lab(l + 1)] + (pp.0 + [Goto(l)])), lim);
  }

  lemma {:induction false} AllConsts(ss: seq<Stmt>, st: St, lim: int)
    requires AllBelow(ss, lim) && lim > 1
    ensures ItemsBelow(LowerAll(ss, st).0, lim)
    decreases ss, 0
  {
    hide ItemsBelow, LowerStmt;
    if ss == [] {
      Nothing(lim);
    } else {
      var c := LowerStmt(ss[0], st);
      StmtConsts(ss[0], st, lim);
      AllConsts(ss[1..], c.1, lim);
      Joined(c.0, LowerAll(ss[1..], c.1).0, lim);
    }
  }

  /** A function whose literals fit lowers to code whose constants are ints of the machine. */
  lemma CodeConsts(m: Machine, f: Func, l: nat)
    requires LitsFit(m, f)
    ensures ConstsBelow(Flatten(LowerFunc(f, l).0), Modulus(m) / 2)
  {
    hide LowerAll;
    var body := LowerBlock(f.body, Entry(f, l)).0;
    AllConsts(f.body, Push(Entry(f, l)), Modulus(m) / 2);
    One(Plain(Inst.Return(0)), Modulus(m) / 2);
    Joined(body, [Plain(Inst.Return(0))], Modulus(m) / 2);
  }
}
