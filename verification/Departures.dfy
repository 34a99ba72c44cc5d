/** Where the lowering does not do what the language says: exactly what it does instead. */
module Departures {
  import opened Ir
  import opened Shape
  import opened Ast
  import opened Lower
  import opened Lowered
  import opened LowerCorrect
  import opened LowerStmts

  /** A declaration opens its local before its initialiser is compiled, so the initialiser
      sees the new variable, with whatever its slot held (here the word of g). */
  lemma DeclReadsNewSlot(m: Machine, x: string, e: Expr, st: St, code: seq<Inst>, pc: nat, env: Env,
                         locals: seq<int>, g: Value, v: Value)
    requires At(code, pc, Flatten(LowerStmt(Decl(x, e), st).0)) && DistinctLabels(code)
    requires Slots(st.scopes, st.n) && st.scopes != [] && Rel(m, st.scopes, env, locals) && st.n < |locals|
    requires Fits(m, g) && locals[st.n] == Enc(m, g) && Value1(m, e, Declare(env, x, g)) == Some(v)
    ensures Stands(m, code, Start(pc, locals), pc + |Flatten(LowerStmt(Decl(x, e), st).0)|,
                   LowerStmt(Decl(x, e), st).1.scopes, Declare(env, x, v), |locals|)
  {
    hide At, DistinctLabels, Slots, Flatten, LowerExpr, Value1, Apply, CanRun, Reach, Rel, AddName, Declare;
    var sc := AddName(st.scopes, x, st.n);
    assert locals[st.n := Enc(m, g)] == locals;
    DeclareRel(m, st.scopes, st.n, env, locals, x, g);
    ValueFits(m, e, sc, Declare(env, x, g), locals);
    var locals' := locals[st.n := Enc(m, v)];
    StoreApply(m, v, st.n, locals);
    ExprThen(m, e, sc, st.l, LocalSet(st.n), code, pc, Declare(env, x, g), locals, v, locals');
    DeclareRel(m, st.scopes, st.n, env, locals, x, v);
    StandsAt(m, code, Start(pc, locals), pc + |Flatten(LowerStmt(Decl(x, e), st).0)|, sc, Declare(env, x, v), locals');
  }

  /** The slot a declaration opens, holding the word of g. */
  function Slot(m: Machine, st: St, locals: seq<int>, g: Value): seq<int>
    requires st.n < |locals|
  {
    locals[st.n := Enc(m, g)]
  }

  /** The value the initialiser gives when the new slot holds g; None where a type checker
      would not let g be there. */
  function WithSlot(m: Machine, x: string, e: Expr, env: Env, g: Value): Option<Value> {
    if Fits(m, g) then Value1(m, e, Declare(env, x, g)) else None
  }

  function DeclCode(x: string, e: Expr, st: St): seq<Inst> {
    Flatten(LowerStmt(Decl(x, e), st).0)
  }

  /** Where a declaration may stand: x is already visible outside. */
  ghost predicate Shadowing(m: Machine, x: string, e: Expr, st: St, env: Env, locals: seq<int>) {
    && DistinctLabels(DeclCode(x, e, st)) && Slots(st.scopes, st.n) && st.scopes != []
    && Rel(m, st.scopes, env, locals) && st.n < |locals| && Get(env, x).Some?
  }

  /** The code of x := e leaves x with the value of e in the surrounding scopes, whatever the
      new slot held before. */
  ghost predicate DeclRight(m: Machine, x: string, e: Expr, st: St, env: Env, locals: seq<int>, v: Value)
    requires st.n < |locals|
  {
    forall g: Value :: WithSlot(m, x, e, env, g).Some? ==>
      Stands(m, DeclCode(x, e, st), Start(0, Slot(m, st, locals, g)), |DeclCode(x, e, st)|,
             AddName(st.scopes, x, st.n), Declare(env, x, v), |locals|)
  }

  /** What the initialiser gives does not depend on what the new slot holds. */
  ghost predicate Independent(m: Machine, x: string, e: Expr, env: Env) {
    forall g: Value, h: Value :: WithSlot(m, x, e, env, g).Some? && WithSlot(m, x, e, env, h).Some? ==>
      Enc(m, WithSlot(m, x, e, env, g).value) == Enc(m, WithSlot(m, x, e, env, h).value)
  }

  /** A declaration that shadows x is compiled right exactly when its initialiser does not
      depend on the new slot - which is sure when the initialiser does not mention x. */
  lemma SelfInitExactly(m: Machine, x: string, e: Expr, st: St, env: Env, locals: seq<int>, v: Value)
    requires Shadowing(m, x, e, st, env, locals) && Value1(m, e, env) == Some(v)
    ensures DeclRight(m, x, e, st, env, locals, v) <==> Independent(m, x, e, env)
    ensures !Mentions(e, x) ==> Independent(m, x, e, env)
  {
    hide Slots, Flatten, LowerExpr, Value1, Reach, DistinctLabels, WithSlot, DeclCode, Stands, Declare, AddName;
    var u := Get(env, x).value;
    OuterFits(m, st.scopes, env, locals, x);
    ValueFits(m, e, st.scopes, env, locals);
    SameSlot(m, x, e, env, u);
    assert WithSlot(m, x, e, env, u) == Some(v) by { SlotIs(m, x, e, env, u); }
    if DeclRight(m, x, e, st, env, locals, v) {
      forall g: Value | WithSlot(m, x, e, env, g).Some?
        ensures Enc(m, WithSlot(m, x, e, env, g).value) == Enc(m, v)
      {
        OneResult(m, x, e, st, env, locals, g, v);
      }
    }
    if Independent(m, x, e, env) {
      forall g: Value | WithSlot(m, x, e, env, g).Some?
        ensures Stands(m, DeclCode(x, e, st), Start(0, Slot(m, st, locals, g)), |DeclCode(x, e, st)|,
                       AddName(st.scopes, x, st.n), Declare(env, x, v), |locals|)
      {
        StandsSame(m, x, e, st, env, locals, g, v);
      }
    }
    if !Mentions(e, x) {
      forall g: Value | WithSlot(m, x, e, env, g).Some?
        ensures WithSlot(m, x, e, env, g) == Some(v)
      {
        SlotIs(m, x, e, env, g);
        Unmentioned(m, x, e, env, g);
      }
    }
  }

  lemma SlotIs(m: Machine, x: string, e: Expr, env: Env, g: Value)
    ensures WithSlot(m, x, e, env, g) == if Fits(m, g) then Value1(m, e, Declare(env, x, g)) else None
  {
  }

  lemma {:induction false} OuterFits(m: Machine, sc: Scopes, env: Env, locals: seq<int>, x: string)
    requires Rel(m, sc, env, locals) && Get(env, x).Some?
    ensures Fits(m, Get(env, x).value)
    decreases |env|
  {
    var n := |env| - 1;
    if x in env[n] {
      assert x in sc[n];
    } else {
      OuterFits(m, sc[..n], env[..n], locals, x);
    }
  }

  /** A slot that holds the outer value makes no difference. */
  lemma {:induction false} SameSlot(m: Machine, x: string, e: Expr, env: Env, u: Value)
    requires Get(env, x) == Some(u)
    ensures Value1(m, e, Declare(env, x, u)) == Value1(m, e, env)
    decreases e
  {
    match e
    case Var(y) => assert Declare(env, x, u)[..|env| - 1] == env[..|env| - 1];
    case Binary(_, a, b) => SameSlot(m, x, a, env, u); SameSlot(m, x, b, env, u);
    case AndAlso(a, b) => SameSlot(m, x, a, env, u); SameSlot(m, x, b, env, u);
    case OrElse(a, b) => SameSlot(m, x, a, env, u); SameSlot(m, x, b, env, u);
    case Negate(a) => SameSlot(m, x, a, env, u);
    case Invert(a) => SameSlot(m, x, a, env, u);
    case _ =>
  }

  lemma {:induction false} Unmentioned(m: Machine, x: string, e: Expr, env: Env, g: Value)
    requires env != [] && !Mentions(e, x)
    ensures Value1(m, e, Declare(env, x, g)) == Value1(m, e, env)
    decreases e
  {
    match e
    case Var(y) => assert Declare(env, x, g)[..|env| - 1] == env[..|env| - 1];
    case Binary(_, a, b) => Unmentioned(m, x, a, env, g); Unmentioned(m, x, b, env, g);
    case AndAlso(a, b) => Unmentioned(m, x, a, env, g); Unmentioned(m, x, b, env, g);
    case OrElse(a, b) => Unmentioned(m, x, a, env, g); Unmentioned(m, x, b, env, g);
    case Negate(a) => Unmentioned(m, x, a, env, g);
    case Invert(a) => Unmentioned(m, x, a, env, g);
    case _ =>
  }

  /** What the code does with this slot. */
  lemma SlotRun(m: Machine, x: string, e: Expr, st: St, env: Env, locals: seq<int>, g: Value)
    requires Shadowing(m, x, e, st, env, locals) && WithSlot(m, x, e, env, g).Some?
    ensures Stands(m, DeclCode(x, e, st), Start(0, Slot(m, st, locals, g)), |DeclCode(x, e, st)|,
                   AddName(st.scopes, x, st.n), Declare(env, x, WithSlot(m, x, e, env, g).value), |locals|)
  {
    hide Slots, Flatten, LowerExpr, Value1, DistinctLabels, Stands, Declare;
    var code := DeclCode(x, e, st);
    var ls := Slot(m, st, locals, g);
    assert code[0..0 + |code|] == code;
    RelFree(m, st, env, locals, Enc(m, g));
    DeclReadsNewSlot(m, x, e, st, code, 0, env, ls, g, WithSlot(m, x, e, env, g).value);
  }

  /** A free slot may hold anything. */
  lemma RelFree(m: Machine, st: St, env: Env, locals: seq<int>, w: int)
    requires Slots(st.scopes, st.n) && Rel(m, st.scopes, env, locals) && st.n < |locals|
    ensures Rel(m, st.scopes, env, locals[st.n := w])
  {
  }

  /** The end of the code is reached once, so x is left with one word. */
  lemma OneResult(m: Machine, x: string, e: Expr, st: St, env: Env, locals: seq<int>, g: Value, v: Value)
    requires Shadowing(m, x, e, st, env, locals) && WithSlot(m, x, e, env, g).Some? &&
             DeclRight(m, x, e, st, env, locals, v)
    ensures Enc(m, WithSlot(m, x, e, env, g).value) == Enc(m, v)
  {
    hide Slots, Flatten, LowerExpr, Value1, DistinctLabels, WithSlot, DeclCode, Reach, AddName, Declare, Enc;
    assert |st.scopes| == |env|;
    hide Rel;
    var code, c, u := DeclCode(x, e, st), Start(0, Slot(m, st, locals, g)), WithSlot(m, x, e, env, g).value;
    SlotRun(m, x, e, st, env, locals, g);
    var sc := AddName(st.scopes, x, st.n);
    assert Stands(m, code, c, |code|, sc, Declare(env, x, v), |locals|);
    var a: seq<int> :| Reach(m, code, c, Start(|code|, a)) && Rel(m, sc, Declare(env, x, u), a);
    var b: seq<int> :| Reach(m, code, c, Start(|code|, b)) && Rel(m, sc, Declare(env, x, v), b);
    EndOnce(m, code, c, a, b);
    WordOf(m, st.scopes, st.n, env, x, u, a);
    WordOf(m, st.scopes, st.n, env, x, v, b);
  }

  lemma WordOf(m: Machine, sc: Scopes, n: nat, env: Env, x: string, u: Value, ls: seq<int>)
    requires sc != [] && |sc| == |env| && Rel(m, AddName(sc, x, n), Declare(env, x, u), ls)
    ensures n < |ls| && ls[n] == Enc(m, u)
  {
    var k, sc', d := |sc| - 1, AddName(sc, x, n), Declare(env, x, u);
    assert x in sc'[k] && sc'[k][x] == n && d[k][x] == u;
  }

  lemma EndOnce(m: Machine, code: seq<Inst>, c: Conf, a: seq<int>, b: seq<int>)
    requires Reach(m, code, c, Start(|code|, a)) && Reach(m, code, c, Start(|code|, b))
    ensures a == b
  {
    hide Run;
    var j: nat :| Run(m, code, c, j) == Start(|code|, a);
    var k: nat :| Run(m, code, c, k) == Start(|code|, b);
    if j < k {
      EndStays(m, code, a, k - j);
      RunAdd(m, code, c, j, k - j);
    } else if k < j {
      EndStays(m, code, b, j - k);
      RunAdd(m, code, c, k, j - k);
    }
  }

  lemma EndStays(m: Machine, code: seq<Inst>, ls: seq<int>, n: nat)
    requires n > 0
    ensures Run(m, code, Start(|code|, ls), n) == Done([])
  {
    RunHalted(m, code, Done([]), n - 1);
  }

  lemma StandsSame(m: Machine, x: string, e: Expr, st: St, env: Env, locals: seq<int>, g: Value, v: Value)
    requires Shadowing(m, x, e, st, env, locals) && WithSlot(m, x, e, env, g).Some? && Fits(m, v)
    requires Enc(m, WithSlot(m, x, e, env, g).value) == Enc(m, v)
    ensures Stands(m, DeclCode(x, e, st), Start(0, Slot(m, st, locals, g)), |DeclCode(x, e, st)|,
                   AddName(st.scopes, x, st.n), Declare(env, x, v), |locals|)
  {
    hide Slots, Flatten, LowerExpr, Value1, DistinctLabels, WithSlot, DeclCode, Reach;
    var code, c, u := DeclCode(x, e, st), Start(0, Slot(m, st, locals, g)), WithSlot(m, x, e, env, g).value;
    SlotRun(m, x, e, st, env, locals, g);
    var sc := AddName(st.scopes, x, st.n);
    var ls :| Reach(m, code, c, Start(|code|, ls)) && |ls| == |locals| && Rel(m, sc, Declare(env, x, u), ls);
    assert Rel(m, sc, Declare(env, x, v), ls) by { RelSame(m, sc, env, x, u, v, ls); }
  }

  lemma RelSame(m: Machine, sc: Scopes, env: Env, x: string, u: Value, v: Value, ls: seq<int>)
    requires env != [] && Rel(m, sc, Declare(env, x, u), ls) && Enc(m, u) == Enc(m, v) && Fits(m, v)
    ensures Rel(m, sc, Declare(env, x, v), ls)
  {
    var e, d, n := Declare(env, x, v), Declare(env, x, u), |env| - 1;
    forall i, y | 0 <= i < |sc| && y in sc[i]
      ensures sc[i][y] < |ls| && Fits(m, e[i][y]) && ls[sc[i][y]] == Enc(m, e[i][y])
    {
      assert ls[sc[i][y]] == Enc(m, d[i][y]);
    }
  }

  /** func(x int) int { { x := x + 1; return x } } */
  function Shadowed(): Func {
    Func(["x"], 1, [Stmt.Block([Decl("x", Binary(Add, Var("x"), Lit(1))), Stmt.Return([Var("x")])])])
  }

  /** Called with a it should return a + 1; its code returns one more than what the new slot
      held, so the two part whenever that was not a. */
  lemma ShadowedReturns(m: Machine, a: int, g: int)
    requires Fits(m, IntV(a)) && Fits(m, IntV(g))
    ensures Call(m, Shadowed(), [IntV(a)], 0) == Returned([IntV(Wrap(m, a + 1))])
    ensures var code, ls := Flatten(LowerFunc(Shadowed(), 0).0), [Enc(m, IntV(a)), Enc(m, IntV(g))];
      Run(m, code, Start(0, ls), 6) == Done([Enc(m, IntV(Wrap(m, g + 1)))])
    ensures Enc(m, IntV(Wrap(m, a + 1))) == Enc(m, IntV(Wrap(m, g + 1))) <==> a == g
  {
    hide Call, Run, Flatten, LowerFunc, Wrap, Enc, Shadowed;
    ShadowedEval(m, a);
    ShadowedRun(m, a, g);
    WordsMeet(m, a, g);
  }

  lemma SameWord(m: Machine, a: int, g: int, k: int)
    requires Fits(m, IntV(a)) && Fits(m, IntV(g)) && (a + k) % Modulus(m) == (g + k) % Modulus(m)
    ensures a == g
  {
    ModAddSub(m, a + k, k);
    ModAddSub(m, g + k, k);
    assert a + k - k == a && g + k - k == g;
    SignedEnc(m, a);
    SignedEnc(m, g);
  }

  lemma WordsMeet(m: Machine, a: int, g: int)
    requires Fits(m, IntV(a)) && Fits(m, IntV(g))
    ensures Enc(m, IntV(Wrap(m, a + 1))) == Enc(m, IntV(Wrap(m, g + 1))) <==> a == g
  {
    WrapFits(m, a + 1);
    WrapFits(m, g + 1);
    hide Signed, Wrap, Modulus;
    if (a + 1) % Modulus(m) == (g + 1) % Modulus(m) {
      SameWord(m, a, g, 1);
    }
  }

  lemma ShadowedEval(m: Machine, a: int)
    ensures Call(m, Shadowed(), [IntV(a)], 0) == Returned([IntV(Wrap(m, a + 1))])
  {
    var f := Shadowed();
    var env: Env := [Bind(f.params, [IntV(a)])];
    assert f.params[..0] == [] && Bind(f.params, [IntV(a)]) == map["x" := IntV(a)];
    var e2, e3 := env + [map[]], env + [map[]] + [map[]];
    var inc := Binary(Add, Var("x"), Lit(1));
    assert e3[..2] == e2 && e2[..1] == env;
    assert Get(e3, "x") == Get(e2, "x") == Get(env, "x") == Some(IntV(a));
    assert Value1(m, inc, e3) == Some(IntV(Wrap(m, a + 1)));
    var v := IntV(Wrap(m, a + 1));
    var d := Declare(e3, "x", v);
    assert Get(d, "x") == Some(v);
    var ret := Stmt.Return([Var("x")]);
    OneValue(m, Var("x"), d, v);
    var ss := [Decl("x", inc), ret];
    assert ss[1..] == [ret] && [ret][1..] == [];
    assert Exec(m, ss[0], e3, 0) == Normal(d);
    assert ExecAll(m, [ret], d, 0) == Returned([v]);
    assert ExecAll(m, ss, e3, 0) == Returned([v]);
    assert Exec(m, Stmt.Block(ss), e2, 0) == Returned([v]);
    assert ExecAll(m, f.body, e2, 0) == Returned([v]);
  }

  lemma OneValue(m: Machine, e: Expr, env: Env, v: Value)
    requires Value1(m, e, env) == Some(v)
    ensures Values(m, [e], env) == Some([v])
  {
    assert [e][1..] == [] && Values(m, [], env) == Some([]);
    assert [v] + [] == [v];
  }

  /** An int operation on a variable in this slot and a literal. */
  lemma SlotOp(op: BinOp, x: string, n: nat, sc: Scopes, k: int, l: nat)
    requires Lookup(sc, x) == k
    ensures LowerExpr(Binary(op, Var(x), Lit(n)), sc, l) == ([Plain(LocalGet(k)), Plain(ConstI64(n)),
             Plain(Bin(op))], l)
  {
    var a, b, c := Plain(LocalGet(k)), Plain(ConstI64(n)), Plain(Bin(op));
    assert [a] + ([b] + [c]) == [a, b, c];
  }

  lemma ShadowedDecl(st: St)
    requires st.scopes != [] && st.n == 1
    ensures LowerStmt(Decl("x", Binary(Add, Var("x"), Lit(1))), st)
         == ([Plain(LocalGet(1)), Plain(ConstI64(1)), Plain(Bin(Add)), Plain(LocalSet(1))], Local(st, "x"))
    ensures Lookup(Local(st, "x").scopes, "x") == 1
  {
    SlotOp(Add, "x", 1, Local(st, "x").scopes, 1, st.l);
    assert [Plain(LocalGet(1)), Plain(ConstI64(1)), Plain(Bin(Add))] + [Plain(LocalSet(1))]
        == [Plain(LocalGet(1)), Plain(ConstI64(1)), Plain(Bin(Add)), Plain(LocalSet(1))];
  }

  lemma ShadowedReturn(st: St)
    requires Lookup(st.scopes, "x") == 1
    ensures LowerAll([Stmt.Return([Var("x")])], st) == ([Plain(LocalGet(1)), Plain(Inst.Return(1))], st)
  {
    var es, c := [Var("x")], Plain(LocalGet(1));
    assert es[1..] == [] && LowerExprs([], st.scopes, st.l) == ([], st.l) && [c] + [] == [c];
    assert LowerExprs(es, st.scopes, st.l) == ([c], st.l);
    var r := Stmt.Return(es);
    assert [c] + [Plain(Inst.Return(1))] == [c, Plain(Inst.Return(1))];
    assert [r][1..] == [] && [c, Plain(Inst.Return(1))] + [] == [c, Plain(Inst.Return(1))];
  }

  lemma OneStmt(s: Stmt, st: St)
    ensures LowerAll([s], st) == (LowerStmt(s, st).0 + [], LowerStmt(s, st).1)
  {
    assert [s][1..] == [];
  }

  lemma ShadowedCode()
    ensures Flatten(LowerFunc(Shadowed(), 0).0)
         == [LocalGet(1), ConstI64(1), Bin(Add), LocalSet(1), LocalGet(1), Inst.Return(1)]
  {
    hide Flatten;
    var st := Push(Push(Entry(Shadowed(), 0)));
    var ss := [Decl("x", Binary(Add, Var("x"), Lit(1))), Stmt.Return([Var("x")])];
    var c1 := [Plain(LocalGet(1)), Plain(ConstI64(1)), Plain(Bin(Add)), Plain(LocalSet(1))];
    var c2 := [Plain(LocalGet(1)), Plain(Inst.Return(1))];
    ShadowedDecl(st);
    ShadowedReturn(Local(st, "x"));
    assert ss[1..] == [Stmt.Return([Var("x")])];
    assert LowerAll(ss, st).0 == c1 + c2 by { hide LowerExpr, LowerExprs; }
    var items := c1 + c2;
    SixFlat(items);
    OneStmt(Stmt.Block(ss), Push(Entry(Shadowed(), 0)));
    assert items + [] == items;
    hide LowerAll, Flatten;
    assert LowerStmt(Stmt.Block(ss), Push(Entry(Shadowed(), 0))).0 == items;
    assert LowerBlock(Shadowed().body, Entry(Shadowed(), 0)).0 == items;
  }

  lemma SixFlat(items: seq<Item>)
    requires items == [Plain(LocalGet(1)), Plain(ConstI64(1)), Plain(Bin(Add)), Plain(LocalSet(1))]
                      + [Plain(LocalGet(1)), Plain(Inst.Return(1))]
    ensures Flatten(items) == [LocalGet(1), ConstI64(1), Bin(Add), LocalSet(1), LocalGet(1), Inst.Return(1)]
  {
    FlatSimple(items);
    hide Flatten;
  }

  lemma ShadowedRun(m: Machine, a: int, g: int)
    requires Fits(m, IntV(g))
    ensures var code, ls := Flatten(LowerFunc(Shadowed(), 0).0), [Enc(m, IntV(a)), Enc(m, IntV(g))];
      Run(m, code, Start(0, ls), 6) == Done([Enc(m, IntV(Wrap(m, g + 1)))])
  {
    ShadowedCode();
    hide Flatten, LowerFunc, Signed, BinVal, Run;
    var code, w, x := Flatten(LowerFunc(Shadowed(), 0).0), Enc(m, IntV(g)), Enc(m, IntV(a));
    var r := BinVal(m, Add, w, 1);
    AddOne(m, g);
    RunNone(m, code, Done([r]));
    FirstHalf(m, code, x, w, r);
    SecondHalf(m, code, x, w, r);
    RunAdd(m, code, Start(0, [x, w]), 3, 3);
  }

  lemma FirstHalf(m: Machine, code: seq<Inst>, x: int, w: int, r: int)
    requires code == [LocalGet(1), ConstI64(1), Bin(Add), LocalSet(1), LocalGet(1), Inst.Return(1)]
    requires r == BinVal(m, Add, w, 1)
    ensures Run(m, code, Start(0, [x, w]), 3) == Running(3, State([r], [x, w]))
  {
    hide BinVal, Run;
    var ls, d := [x, w], Running(3, State([r], [x, w]));
    RunNone(m, code, d);
    assert [w, 1][..0] == [] && [] + [r] == [r];
    RunNext(m, code, Running(2, State([w, 1], ls)), d, 0, d);
    assert [w] + [1] == [w, 1];
    RunNext(m, code, Running(1, State([w], ls)), Running(2, State([w, 1], ls)), 1, d);
    assert [] + [w] == [w];
    RunNext(m, code, Start(0, ls), Running(1, State([w], ls)), 2, d);
  }

  lemma SecondHalf(m: Machine, code: seq<Inst>, x: int, w: int, r: int)
    requires code == [LocalGet(1), ConstI64(1), Bin(Add), LocalSet(1), LocalGet(1), Inst.Return(1)]
    requires Mask(m, r) == r
    ensures Run(m, code, Running(3, State([r], [x, w])), 3) == Done([r])
  {
    hide Mask, Run;
    var d := Done([r]);
    RunNone(m, code, d);
    RunNext(m, code, Running(5, State([r], [x, r])), d, 0, d);
    assert [] + [r] == [r];
    RunNext(m, code, Start(4, [x, r]), Running(5, State([r], [x, r])), 1, d);
    assert [r][..0] == [] && [x, w][1 := r] == [x, r];
    RunNext(m, code, Running(3, State([r], [x, w])), Start(4, [x, r]), 2, d);
  }

  lemma AddOne(m: Machine, g: int)
    requires Fits(m, IntV(g))
    ensures var r := BinVal(m, Add, Enc(m, IntV(g)), 1);
      r == Enc(m, IntV(Wrap(m, g + 1))) && Mask(m, r) == r
  {
    hide Signed, Wrap, Fits;
    assert 1 % Modulus(m) == 1;
    WrapFits(m, g + 1);
    ModAddSub(m, g, 1);
    var M := Modulus(m);
    hide Modulus;
    assert (g % M + 1) % M == (g + 1) % M;
  }

  lemma RunNone(m: Machine, code: seq<Inst>, c: Conf)
    ensures Run(m, code, c, 0) == c
  {
  }

  lemma RunNext(m: Machine, code: seq<Inst>, c: Conf, d: Conf, n: nat, e: Conf)
    requires Step(m, code, c) == d && Run(m, code, d, n) == e
    ensures Run(m, code, c, n + 1) == e
  {
  }

  lemma {:induction false} FlatSimple(items: seq<Item>)
    requires forall i :: 0 <= i < |items| ==> !items[i].Loop? && !items[i].Short?
    ensures |Flatten(items)| == |items| && forall i :: 0 <= i < |items| ==> Flatten(items)[i] == FlatItem(items[i])[0]
  {
    if items != [] {
      FlatSimple(items[1..]);
    }
  }
}
