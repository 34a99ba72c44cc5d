/** The lowering emits well-formed shapes, continued: where jumps go, what follows a label,
    and that a function which must return is dead after its last statement. */
module LowerLevels {
  import opened Ir
  import opened Shape
  import opened Ast
  import opened Lower
  import opened Lowered
  import opened LowerShape
  import Structured

  // ----- levels, from the back -----

  ghost predicate StartsPlain(r: seq<Item>) {
    r == [] || (!r[0].Lab? && !r[0].Loop?)
  }

  lemma {:induction false} ExprLevel(x: seq<Item>, r: seq<Item>, loop: LoopOf)
    requires RhsOK(x) && LevelOK(r, loop) && StartsPlain(r)
    ensures LevelOK(x + r, loop)
    decreases x
  {
    if x == [] {
      assert x + r == r;
    } else {
      assert (x + r)[1..] == x[1..] + r;
      assert RhsItemOK(x[0]);
      if |x| > 1 {
        assert RhsItemOK(x[1]) && (x + r)[1] == x[1];
      }
      ExprLevel(x[1..], r, loop);
    }
  }

  lemma FollowExpr(x: seq<Item>, r: seq<Item>, loop: LoopOf, lo: nat, hi: nat, n: nat)
    requires ExprShape(x, lo, hi, n) && LevelOK(r, loop) && StartsPlain(r)
    ensures LevelOK(x + r, loop)
  {
    ExprLevel(x, r, loop);
  }

  lemma FollowExprs(x: seq<Item>, r: seq<Item>, loop: LoopOf, lo: nat, hi: nat, n: nat, k: nat)
    requires ExprsShape(x, lo, hi, n, k) && LevelOK(r, loop) && StartsPlain(r)
    ensures LevelOK(x + r, loop)
  {
    ExprLevel(x, r, loop);
  }

  /** One instruction or jump in front of a level. */
  lemma FollowOne(it: Item, r: seq<Item>, loop: LoopOf)
    requires LevelOK(r, loop) && ItemOK(it, r, loop) && !IsConst(it) && !it.Loop?
    ensures LevelOK([it] + r, loop) && (StartsPlain([it] + r) || it.Lab?)
  {
    assert ([it] + r)[1..] == r;
  }

  lemma FollowLoop(it: Item, r: seq<Item>, loop: LoopOf)
    requires it.Loop? && it.head >= 0 && it.brk >= 0 && it.body != [] && it.body[|it.body| - 1] == Goto(it.head)
    requires LevelOK(r, loop) && LevelOK(it.body, Some((it.head, it.brk)))
    ensures LevelOK([it] + r, loop)
  {
    assert ([it] + r)[1..] == r;
  }

  lemma FollowStore(e: Expr, sc: Scopes, l: nat, it: Item, r: seq<Item>, loop: LoopOf, n: nat)
    requires ExprScoped(e, NamesOf(sc)) && Slots(sc, n) && LevelOK(r, loop)
    requires it == Plain(Inst.Drop) || (it.Plain? && it.op.LocalSet?)
    ensures LevelOK(LowerExpr(e, sc, l).0 + [it] + r, loop)
  {
    ExprShaped(e, sc, l, n);
    FollowOne(it, r, loop);
    var x := LowerExpr(e, sc, l).0;
    assert x + [it] + r == x + ([it] + r);
    FollowExpr(x, [it] + r, loop, l, LowerExpr(e, sc, l).1, n);
  }

  /** The labels that break and continue use are those of the loop around the level. */
  ghost predicate Loops(st: St, r: seq<Item>, loop: LoopOf) {
    if loop.None? then st.brks == [] && st.conts == []
    else
      && st.brks != [] && st.brks[|st.brks| - 1] == loop.value.1
      && st.conts != [] && st.conts[|st.conts| - 1] in TopLabs(r)
  }

  /** A statement without control flow. */
  lemma SimpleLevel(s: Stmt, st: St, r: seq<Item>, loop: LoopOf, n: nat, rc: nat)
    requires Here(s, st, n, rc) && LevelOK(r, loop) && (Simple(s) || s.Decl? || s.Zero?)
    ensures LevelOK(LowerStmt(s, st).0 + r, loop)
  {
    hide NamesOf, Slots, LowerExpr, InScope, ExprScoped, LevelOK;
    SlotsHere(s, st, n);
    match s
    case Nop => assert [] + r == r;
    case Decl(x, e) =>
      SameCode(e, st.scopes, x, st.n, st.l);
      FollowStore(e, st.scopes, st.l, Plain(LocalSet(st.n)), r, loop, n);
    case Zero(x, _) =>
      LitIs(st.scopes, st.l);
      LitScoped(NamesOf(st.scopes));
      assert [Plain(ConstI64(0))] + [Plain(LocalSet(st.n))] == [Plain(ConstI64(0)), Plain(LocalSet(st.n))];
      FollowStore(Lit(0), st.scopes, st.l, Plain(LocalSet(st.n)), r, loop, n);
    case Assign(x, e) =>
      FollowStore(e, st.scopes, st.l, StoreTo(st.scopes, x), r, loop, n);
    case OpAssign(x, op, e) =>
      OpScoped(op, x, e, NamesOf(st.scopes));
      FollowStore(Binary(op, Var(x), e), st.scopes, st.l, StoreTo(st.scopes, x), r, loop, n);
    case Inc(x) =>
      LitScoped(NamesOf(st.scopes));
      OpScoped(Add, x, Lit(1), NamesOf(st.scopes));
      FollowStore(Binary(Add, Var(x), Lit(1)), st.scopes, st.l, StoreTo(st.scopes, x), r, loop, n);
    case Eval(e) =>
      FollowStore(e, st.scopes, st.l, Plain(Inst.Drop), r, loop, n);
  }

  lemma {:induction false} StmtLevel(s: Stmt, st: St, r: seq<Item>, loop: LoopOf, n: nat, rc: nat)
    requires Here(s, st, n, rc) && LevelOK(r, loop) && Loops(st, r, loop)
    ensures LevelOK(LowerStmt(s, st).0 + r, loop)
    decreases s, 3
  {
    hide NamesOf, Slots, LowerExpr, LowerExprs, InScope, ExprScoped, LevelOK;
    match s
    case If(_, _, _) => IfLevel(s, st, r, loop, n, rc);
    case For(_, _, _, _) => ForLevel(s, st, r, loop, n, rc);
    case Block(ss) =>
      BlockHere(ss, st, n, rc);
      AllLevel(ss, Push(st), r, loop, n, rc);
    case Break => JumpLevel(st.brks, r, loop);
    case Continue => JumpLevel(st.conts, r, loop);
    case Return(es) => ReturnLevel(s, st, r, loop, n, rc);
    case _ => SimpleLevel(s, st, r, loop, n, rc);
  }

  lemma JumpLevel(ls: seq<int>, r: seq<Item>, loop: LoopOf)
    requires LevelOK(r, loop)
    requires ls != [] ==> ItemOK(Goto(ls[|ls| - 1]), r, loop)
    ensures LevelOK((if ls == [] then [] else [Goto(ls[|ls| - 1])]) + r, loop)
  {
    if ls == [] {
      assert [] + r == r;
    } else {
      FollowOne(Goto(ls[|ls| - 1]), r, loop);
    }
  }

  lemma ReturnLevel(s: Stmt, st: St, r: seq<Item>, loop: LoopOf, n: nat, rc: nat)
    requires s.Return? && Here(s, st, n, rc) && LevelOK(r, loop)
    ensures LevelOK(LowerStmt(s, st).0 + r, loop)
  {
    hide NamesOf, LowerExprs, InScope, ExprScoped, ExprsShape;
    SlotsHere(s, st, n);
    var x, it := LowerExprs(s.es, st.scopes, st.l), Plain(Inst.Return(|s.es|));
    ExprsShaped(s.es, st.scopes, st.l, n);
    FollowOne(it, r, loop);
    FollowExprs(x.0, [it] + r, loop, st.l, x.1, n, |s.es|);
    assert x.0 + [it] + r == x.0 + ([it] + r);
  }

  lemma BlockHere(ss: seq<Stmt>, st: St, n: nat, rc: nat)
    requires Here(Block(ss), st, n, rc)
    ensures ListHere(ss, Push(st), n, rc) && LowerStmt(Block(ss), st).0 == LowerAll(ss, Push(st)).0
    ensures Push(st).brks == st.brks && Push(st).conts == st.conts && Push(st).l == st.l
    ensures LowerStmt(Block(ss), st).1.l == LowerAll(ss, Push(st)).1.l
  {
    hide NamesOf, Slots;
    NamesPush(st.scopes);
    PushSlots(st.scopes, st.n);
    BlockIs(ss, st);
  }

  lemma {:induction false} AllLevel(ss: seq<Stmt>, st: St, r: seq<Item>, loop: LoopOf, n: nat, rc: nat)
    requires ListHere(ss, st, n, rc) && LevelOK(r, loop) && Loops(st, r, loop)
    ensures LevelOK(LowerAll(ss, st).0 + r, loop)
    decreases ss, 0
  {
    hide LowerStmt, ListHere, Here, LevelOK;
    if ss == [] {
      assert [] + r == r;
    } else {
      ListParts(ss, st, n, rc);
      var c := LowerStmt(ss[0], st);
      var d := LowerAll(ss[1..], c.1);
      AllLevel(ss[1..], c.1, r, loop, n, rc);
      TopAppend(d.0, r);
      StmtLevel(ss[0], st, d.0 + r, loop, n, rc);
      assert c.0 + d.0 + r == c.0 + (d.0 + r);
    }
  }

  lemma {:induction false} IfLevel(s: Stmt, st: St, r: seq<Item>, loop: LoopOf, n: nat, rc: nat)
    requires s.If? && Here(s, st, n, rc) && LevelOK(r, loop) && Loops(st, r, loop)
    ensures LevelOK(LowerStmt(s, st).0 + r, loop)
    decreases s, 2
  {
    hide NamesOf, Slots, LowerExpr, LowerStmt, LowerBlock, Here, ListHere, LevelOK, ExprScoped, InScope;
    IfHere(s, st, n, rc);
    var cc := LowerExpr(s.cond, st.scopes, st.l + 2);
    var st1 := Labelled(st, cc.1);
    var tt := LowerBlock(s.thn, st1);
    var ee := LowerStmt(s.els, tt.1);
    var r5 := [Lab(st.l + 1)] + r;
    LabLevel(st.l + 1, r, loop);
    StmtLevel(s.els, tt.1, r5, loop, n, rc);
    var r4 := [Lab(st.l)] + (ee.0 + r5);
    TopAppend(ee.0, r5);
    LabLevel(st.l, ee.0 + r5, loop);
    var r3 := [Goto(st.l + 1)] + r4;
    GotoLevel(st.l + 1, r4, loop);
    BlockIs(s.thn, st1);
    AllLevel(s.thn, Push(st1), r3, loop, n, rc);
    TopAppend(tt.0, r3);
    IfFront(s, st, tt.0 + r3, loop, n);
    IfRegroup(cc.0, tt.0, ee.0, r, st.l);
  }

  lemma LabLevel(l: int, r: seq<Item>, loop: LoopOf)
    requires l >= 0 && LevelOK(r, loop)
    ensures LevelOK([Lab(l)] + r, loop) && TopLabs([Lab(l)] + r) == {l} + TopLabs(r)
  {
    FollowOne(Lab(l), r, loop);
    assert ([Lab(l)] + r)[1..] == r;
  }

  lemma GotoLevel(l: int, r: seq<Item>, loop: LoopOf)
    requires l in TopLabs(r) && LevelOK(r, loop)
    ensures LevelOK([Goto(l)] + r, loop) && TopLabs([Goto(l)] + r) == TopLabs(r)
  {
    FollowOne(Goto(l), r, loop);
    assert ([Goto(l)] + r)[1..] == r;
  }

  lemma IfFront(s: Stmt, st: St, r: seq<Item>, loop: LoopOf, n: nat)
    requires s.If? && ExprScoped(s.cond, NamesOf(st.scopes)) && Slots(st.scopes, n)
    requires LevelOK(r, loop) && st.l in TopLabs(r)
    ensures LevelOK(LowerExpr(s.cond, st.scopes, st.l + 2).0 + ([GotoIfNot(st.l)] + r), loop)
  {
    hide ExprShape, NamesOf, Slots, LowerExpr;
    var x := LowerExpr(s.cond, st.scopes, st.l + 2);
    ExprShaped(s.cond, st.scopes, st.l + 2, n);
    FollowOne(GotoIfNot(st.l), r, loop);
    FollowExpr(x.0, [GotoIfNot(st.l)] + r, loop, st.l + 2, x.1, n);
  }

  lemma IfRegroup(cc: seq<Item>, tt: seq<Item>, ee: seq<Item>, r: seq<Item>, l: int)
    ensures cc + ([GotoIfNot(l)] + (tt + ([Goto(l + 1), Lab(l)] + (ee + [Lab(l + 1)])))) + r
         == cc + ([GotoIfNot(l)] + (tt + ([Goto(l + 1)] + ([Lab(l)] + (ee + ([Lab(l + 1)] + r))))))
  {
    var a, b := [GotoIfNot(l)], [Goto(l + 1), Lab(l)];
    assert ee + [Lab(l + 1)] + r == ee + ([Lab(l + 1)] + r);
    assert b + (ee + [Lab(l + 1)]) + r == [Goto(l + 1)] + ([Lab(l)] + (ee + [Lab(l + 1)] + r));
  }

  lemma {:induction false} ForLevel(s: Stmt, st: St, r: seq<Item>, loop: LoopOf, n: nat, rc: nat)
    requires s.For? && Here(s, st, n, rc) && LevelOK(r, loop)
    ensures LevelOK(LowerStmt(s, st).0 + r, loop)
    decreases s, 2
  {
    hide NamesOf, Slots, LowerExpr, LowerStmt, LowerBlock, LowerLoop, Here, ListHere, LevelOK, ExprScoped, InScope,
      Test, AfterInit, LoopStart;
    ForIs(s, st);
    ForHere(s, st, n, rc);
    var st0, ii := LoopStart(st), AfterInit(s, st);
    var cc := Test(s.test, ii.1.scopes, ii.1.l, st.l + 2);
    var st1 := Labelled(ii.1, cc.1);
    var bb := LowerBlock(s.body, st1);
    var pp := LowerStmt(s.post, bb.1);
    var me := Some((st.l as int, (st.l + 2) as int));
    var r4 := [Goto(st.l)];
    BackLevel(st.l, st.l + 2);
    SimpleLevel(s.post, bb.1, r4, me, n, rc);
    var r3 := [Lab(st.l + 1)] + (pp.0 + r4);
    LabLevel(st.l + 1, pp.0 + r4, me);
    LoopLabelsOf(st, ii.1);
    BlockIs(s.body, st1);
    AllLevel(s.body, Push(st1), r3, me, n, rc);
    TestLevel(s.test, ii.1.scopes, ii.1.l, bb.0 + r3, st.l, n);
    var body := cc.0 + (bb.0 + r3);
    FollowLoop(Loop(st.l, st.l + 2, body), r, loop);
    InitSimple(s, st, n, rc);
    SimpleLevel(s.init, st0, [Loop(st.l, st.l + 2, body)] + r, loop, n, rc);
    assert ii.0 + [Loop(st.l, st.l + 2, body)] + r == ii.0 + ([Loop(st.l, st.l + 2, body)] + r);
  }

  lemma InitSimple(s: Stmt, st: St, n: nat, rc: nat)
    requires s.For? && Here(s, st, n, rc)
    ensures Simple(s.init) || s.init.Decl?
  {
  }

  /** The labels of a loop are the innermost ones in its body. */
  lemma LoopLabelsOf(st: St, st1: St)
    requires Follows(LoopStart(st), st1)
    ensures st1.brks != [] && st1.brks[|st1.brks| - 1] == st.l + 2
    ensures st1.conts != [] && st1.conts[|st1.conts| - 1] == st.l + 1
  {
  }

  lemma BackLevel(h: nat, b: nat)
    ensures LevelOK([Goto(h)], Some((h as int, b as int)))
  {
    assert [Goto(h)][1..] == [];
  }

  lemma TestLevel(test: Option<Expr>, sc: Scopes, l: nat, r: seq<Item>, h: nat, n: nat)
    requires test.Some? ==> ExprScoped(test.value, NamesOf(sc))
    requires Slots(sc, n) && LevelOK(r, Some((h as int, (h + 2) as int)))
    ensures LevelOK(Test(test, sc, l, h + 2).0 + r, Some((h as int, (h + 2) as int)))
  {
    hide ExprShape, NamesOf, Slots, LowerExpr;
    if test.Some? {
      var loop := Some((h as int, (h + 2) as int));
      var x := LowerExpr(test.value, sc, l);
      ExprShaped(test.value, sc, l, n);
      FollowOne(GotoIfNot(h + 2), r, loop);
      FollowExpr(x.0, [GotoIfNot(h + 2)] + r, loop, l, x.1, n);
      assert x.0 + [GotoIfNot(h + 2)] + r == x.0 + ([GotoIfNot(h + 2)] + r);
    } else {
      assert [] + r == r;
    }
  }

  // ----- returns -----

  /** Every return, at any depth, gives rc values. */
  predicate Arity(items: seq<Item>, rc: nat)
    decreases items
  {
    items == [] || (ArityOf(items[0], rc) && Arity(items[1..], rc))
  }

  predicate ArityOf(it: Item, rc: nat)
    decreases it
  {
    match it
    case Plain(op) => op.Return? ==> op.n == rc
    case Loop(_, _, body) => Arity(body, rc)
    case _ => true
  }

  lemma {:induction false} ArityAppend(a: seq<Item>, b: seq<Item>, rc: nat)
    ensures Arity(a + b, rc) <==> Arity(a, rc) && Arity(b, rc)
    decreases a
  {
    if a == [] {
      assert a + b == b;
    } else {
      assert (a + b)[1..] == a[1..] + b;
      ArityAppend(a[1..], b, rc);
    }
  }

  lemma ArityOne(it: Item, rc: nat)
    ensures Arity([it], rc) <==> ArityOf(it, rc)
  {
    assert [it][1..] == [];
  }

  lemma {:induction false} ArityReturns(items: seq<Item>, T: set<int>, f: Flow, rc: nat)
    requires Arity(items, rc)
    ensures ReturnsOK(items, T, f, rc)
    decreases items
  {
    if items != [] {
      if items[0].Loop? {
        ArityReturns(items[0].body, Targets(items[0].body), f, rc);
      }
      ArityReturns(items[1..], T, FlowItem(items[0], T, f), rc);
    }
  }

  lemma {:induction false} ArityRhs(items: seq<Item>, rc: nat)
    requires RhsOK(items)
    ensures Arity(items, rc)
    decreases items
  {
    if items != [] {
      assert RhsItemOK(items[0]);
      ArityRhs(items[1..], rc);
    }
  }

  lemma ArityExpr(e: Expr, sc: Scopes, l: nat, n: nat, rc: nat)
    requires ExprScoped(e, NamesOf(sc)) && Slots(sc, n)
    ensures Arity(LowerExpr(e, sc, l).0, rc)
  {
    ExprShaped(e, sc, l, n);
    ArityRhs(LowerExpr(e, sc, l).0, rc);
  }

  lemma ArityStore(e: Expr, sc: Scopes, l: nat, it: Item, n: nat, rc: nat)
    requires ExprScoped(e, NamesOf(sc)) && Slots(sc, n) && ArityOf(it, rc)
    ensures Arity(LowerExpr(e, sc, l).0 + [it], rc)
  {
    ArityExpr(e, sc, l, n, rc);
    ArityOne(it, rc);
    ArityAppend(LowerExpr(e, sc, l).0, [it], rc);
  }

  lemma {:induction false} StmtArity(s: Stmt, st: St, n: nat, rc: nat)
    requires Here(s, st, n, rc)
    ensures Arity(LowerStmt(s, st).0, rc)
    decreases s, 3
  {
    hide NamesOf, Slots, LowerExpr, LowerExprs, InScope, ExprScoped, Arity;
    SlotsHere(s, st, n);
    NoItems(rc);
    match s
    case If(_, _, _) => IfArity(s, st, n, rc);
    case For(_, _, _, _) => ForArity(s, st, n, rc);
    case Block(ss) =>
      BlockHere(ss, st, n, rc);
      AllArity(ss, Push(st), n, rc);
    case Break => JumpArity(st.brks, rc);
    case Continue => JumpArity(st.conts, rc);
    case Return(es) =>
      ExprsShaped(es, st.scopes, st.l, n);
      ArityRhs(LowerExprs(es, st.scopes, st.l).0, rc);
      ArityOne(Plain(Inst.Return(|es|)), rc);
      ArityAppend(LowerExprs(es, st.scopes, st.l).0, [Plain(Inst.Return(|es|))], rc);
    case Nop =>
    case Decl(x, e) =>
      SameCode(e, st.scopes, x, st.n, st.l);
      ArityStore(e, st.scopes, st.l, Plain(LocalSet(st.n)), n, rc);
    case Zero(x, _) =>
      ArityOne(Plain(ConstI64(0)), rc);
      ArityOne(Plain(LocalSet(st.n)), rc);
      ArityAppend([Plain(ConstI64(0))], [Plain(LocalSet(st.n))], rc);
      assert [Plain(ConstI64(0))] + [Plain(LocalSet(st.n))] == [Plain(ConstI64(0)), Plain(LocalSet(st.n))];
    case Assign(x, e) =>
      ArityStore(e, st.scopes, st.l, StoreTo(st.scopes, x), n, rc);
    case OpAssign(x, op, e) =>
      OpScoped(op, x, e, NamesOf(st.scopes));
      ArityStore(Binary(op, Var(x), e), st.scopes, st.l, StoreTo(st.scopes, x), n, rc);
    case Inc(x) =>
      LitScoped(NamesOf(st.scopes));
      OpScoped(Add, x, Lit(1), NamesOf(st.scopes));
      ArityStore(Binary(Add, Var(x), Lit(1)), st.scopes, st.l, StoreTo(st.scopes, x), n, rc);
    case Eval(e) =>
      ArityStore(e, st.scopes, st.l, Plain(Inst.Drop), n, rc);
  }

  lemma NoItems(rc: nat)
    ensures Arity([], rc)
  {
  }

  lemma JumpArity(ls: seq<int>, rc: nat)
    ensures Arity(if ls == [] then [] else [Goto(ls[|ls| - 1])], rc)
  {
    if ls != [] {
      ArityOne(Goto(ls[|ls| - 1]), rc);
    }
  }

  lemma {:induction false} AllArity(ss: seq<Stmt>, st: St, n: nat, rc: nat)
    requires ListHere(ss, st, n, rc)
    ensures Arity(LowerAll(ss, st).0, rc)
    decreases ss, 0
  {
    hide LowerStmt, ListHere, Here, Follows;
    if ss != [] {
      ListParts(ss, st, n, rc);
      var c := LowerStmt(ss[0], st);
      StmtArity(ss[0], st, n, rc);
      AllArity(ss[1..], c.1, n, rc);
      ArityAppend(c.0, LowerAll(ss[1..], c.1).0, rc);
    }
  }

  lemma {:induction false} IfArity(s: Stmt, st: St, n: nat, rc: nat)
    requires s.If? && Here(s, st, n, rc)
    ensures Arity(LowerStmt(s, st).0, rc)
    decreases s, 2
  {
    hide NamesOf, Slots, LowerExpr, LowerStmt, LowerBlock, Here, ListHere, ExprScoped, InScope, Follows, Arity;
    IfHere(s, st, n, rc);
    var cc := LowerExpr(s.cond, st.scopes, st.l + 2);
    var st1 := Labelled(st, cc.1);
    var tt := LowerBlock(s.thn, st1);
    var ee := LowerStmt(s.els, tt.1);
    ArityExpr(s.cond, st.scopes, st.l + 2, n, rc);
    BlockIs(s.thn, st1);
    AllArity(s.thn, Push(st1), n, rc);
    StmtArity(s.els, tt.1, n, rc);
    ArityOne(Lab(st.l + 1), rc);
    ArityOne(Lab(st.l), rc);
    ArityOne(Goto(st.l + 1), rc);
    ArityOne(GotoIfNot(st.l), rc);
    ArityAppend(ee.0, [Lab(st.l + 1)], rc);
    ArityAppend([Goto(st.l + 1)], [Lab(st.l)], rc);
    assert [Goto(st.l + 1)] + [Lab(st.l)] == [Goto(st.l + 1), Lab(st.l)];
    var r := ee.0 + [Lab(st.l + 1)];
    ArityAppend([Goto(st.l + 1), Lab(st.l)], r, rc);
    ArityAppend(tt.0, [Goto(st.l + 1), Lab(st.l)] + r, rc);
    ArityAppend([GotoIfNot(st.l)], tt.0 + ([Goto(st.l + 1), Lab(st.l)] + r), rc);
    ArityAppend(cc.0, [GotoIfNot(st.l)] + (tt.0 + ([Goto(st.l + 1), Lab(st.l)] + r)), rc);
  }

  lemma {:induction false} ForArity(s: Stmt, st: St, n: nat, rc: nat)
    requires s.For? && Here(s, st, n, rc)
    ensures Arity(LowerStmt(s, st).0, rc)
    decreases s, 2
  {
    hide NamesOf, Slots, LowerExpr, LowerStmt, LowerBlock, LowerLoop, Here, ListHere, ExprScoped, InScope, Test,
      AfterInit, LoopStart, Follows, Arity;
    ForIs(s, st);
    ForHere(s, st, n, rc);
    var st0, ii := LoopStart(st), AfterInit(s, st);
    var cc := Test(s.test, ii.1.scopes, ii.1.l, st.l + 2);
    var st1 := Labelled(ii.1, cc.1);
    var bb := LowerBlock(s.body, st1);
    var pp := LowerStmt(s.post, bb.1);
    StmtArity(s.init, st0, n, rc);
    TestArity(s.test, ii.1.scopes, ii.1.l, st.l + 2, n, rc);
    BlockIs(s.body, st1);
    AllArity(s.body, Push(st1), n, rc);
    StmtArity(s.post, bb.1, n, rc);
    ArityOne(Goto(st.l), rc);
    ArityOne(Lab(st.l + 1), rc);
    var r := pp.0 + [Goto(st.l)];
    ArityAppend(pp.0, [Goto(st.l)], rc);
    ArityAppend([Lab(st.l + 1)], r, rc);
    ArityAppend(bb.0, [Lab(st.l + 1)] + r, rc);
    var body := cc.0 + (bb.0 + ([Lab(st.l + 1)] + r));
    ArityAppend(cc.0, bb.0 + ([Lab(st.l + 1)] + r), rc);
    ArityOne(Loop(st.l, st.l + 2, body), rc);
    ArityAppend(ii.0, [Loop(st.l, st.l + 2, body)], rc);
  }

  lemma TestArity(test: Option<Expr>, sc: Scopes, l: nat, brk: int, n: nat, rc: nat)
    requires test.Some? ==> ExprScoped(test.value, NamesOf(sc))
    requires Slots(sc, n)
    ensures Arity(Test(test, sc, l, brk).0, rc)
  {
    if test.Some? {
      ArityExpr(test.value, sc, l, n, rc);
      ArityOne(GotoIfNot(brk), rc);
      ArityAppend(LowerExpr(test.value, sc, l).0, [GotoIfNot(brk)], rc);
    }
  }
}
