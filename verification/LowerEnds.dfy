/** A function that must return: after a terminating statement the emitted code is dead. */
module LowerEnds {
  import opened Ir
  import opened Shape
  import opened Ast
  import opened Lower
  import opened Lowered
  import opened LowerShape
  import opened LowerLevels
  import Structured

  /** Whether a break in s leaves the loop around s. */
  predicate Breaks(s: Stmt)
    decreases s, 1
  {
    match s
    case Break => true
    case If(_, t, e) => AnyBreaks(t) || Breaks(e)
    case Block(ss) => AnyBreaks(ss)
    case _ => false
  }

  predicate AnyBreaks(ss: seq<Stmt>)
    decreases ss, 0
  {
    ss != [] && (Breaks(ss[0]) || AnyBreaks(ss[1..]))
  }

  /** Terminating statements, as the language defines them. */
  predicate Terminating(s: Stmt)
    decreases s, 1
  {
    match s
    case Return(_) => true
    case If(_, t, e) => ListTerminating(t) && Terminating(e)
    case For(_, test, _, body) => test.None? && !AnyBreaks(body)
    case Block(ss) => ListTerminating(ss)
    case _ => false
  }

  predicate ListTerminating(ss: seq<Stmt>)
    decreases ss, 0
  {
    ss != [] && (if |ss| == 1 then Terminating(ss[0]) else ListTerminating(ss[1..]))
  }

  function Last(ls: seq<int>): set<int> {
    if ls == [] then {} else {ls[|ls| - 1]}
  }

  /** What a piece of code adds to the marked labels: some of its own, some of the loop's. */
  ghost predicate Adds(f: Flow, g: Flow, S: set<int>) {
    f.marked <= g.marked <= f.marked + S
  }

  lemma FlowOneItem(it: Item, T: set<int>, f: Flow)
    ensures FlowAll([it], T, f) == FlowItem(it, T, f)
  {
    assert [it][1..] == [];
  }

  lemma FlowExpr(e: Expr, sc: Scopes, l: nat, n: nat, T: set<int>, f: Flow)
    requires ExprScoped(e, NamesOf(sc)) && Slots(sc, n)
    ensures FlowAll(LowerExpr(e, sc, l).0, T, f) == f
  {
    ExprShaped(e, sc, l, n);
    Structured.RhsLevel(LowerExpr(e, sc, l).0, T, f, 0);
  }

  lemma FlowStore(e: Expr, sc: Scopes, l: nat, it: Item, n: nat, T: set<int>, f: Flow)
    requires ExprScoped(e, NamesOf(sc)) && Slots(sc, n)
    requires it == Plain(Inst.Drop) || (it.Plain? && it.op.LocalSet?)
    ensures FlowAll(LowerExpr(e, sc, l).0 + [it], T, f) == f
  {
    FlowExpr(e, sc, l, n, T, f);
    FlowAppend(LowerExpr(e, sc, l).0, [it], T, f);
    FlowOneItem(it, T, f);
  }

  /** Statements without control flow change nothing. */
  lemma FlowSimple(s: Stmt, st: St, n: nat, rc: nat, T: set<int>, f: Flow)
    requires Here(s, st, n, rc) && (Simple(s) || s.Decl? || s.Zero?)
    ensures FlowAll(LowerStmt(s, st).0, T, f) == f
  {
    hide NamesOf, Slots, LowerExpr, InScope, ExprScoped, FlowItem;
    SlotsHere(s, st, n);
    match s
    case Nop =>
    case Decl(x, e) =>
      SameCode(e, st.scopes, x, st.n, st.l);
      FlowStore(e, st.scopes, st.l, Plain(LocalSet(st.n)), n, T, f);
    case Zero(x, _) =>
      LitIs(st.scopes, st.l);
      LitScoped(NamesOf(st.scopes));
      assert [Plain(ConstI64(0))] + [Plain(LocalSet(st.n))] == [Plain(ConstI64(0)), Plain(LocalSet(st.n))];
      FlowStore(Lit(0), st.scopes, st.l, Plain(LocalSet(st.n)), n, T, f);
    case Assign(x, e) => FlowStore(e, st.scopes, st.l, StoreTo(st.scopes, x), n, T, f);
    case OpAssign(x, op, e) =>
      OpScoped(op, x, e, NamesOf(st.scopes));
      FlowStore(Binary(op, Var(x), e), st.scopes, st.l, StoreTo(st.scopes, x), n, T, f);
    case Inc(x) =>
      LitScoped(NamesOf(st.scopes));
      OpScoped(Add, x, Lit(1), NamesOf(st.scopes));
      FlowStore(Binary(Add, Var(x), Lit(1)), st.scopes, st.l, StoreTo(st.scopes, x), n, T, f);
    case Eval(e) => FlowStore(e, st.scopes, st.l, Plain(Inst.Drop), n, T, f);
  }

  /** The labels a statement may mark: its own, continue's, and break's if it breaks. */
  function May(st: St, hi: int, breaks: bool): set<int> {
    Range(st.l, hi) + Last(st.conts) + (if breaks then Last(st.brks) else {})
  }

  lemma {:induction false} StmtMarks(s: Stmt, st: St, n: nat, rc: nat, T: set<int>, f: Flow)
    requires Here(s, st, n, rc)
    ensures Adds(f, FlowAll(LowerStmt(s, st).0, T, f), May(st, LowerStmt(s, st).1.l, Breaks(s)))
    decreases s, 3
  {
    hide NamesOf, Slots, LowerExpr, LowerExprs, InScope, ExprScoped, FlowAll, Range;
    match s
    case If(_, _, _) => IfMarks(s, st, n, rc, T, f);
    case For(_, _, _, _) => ForMarks(s, st, n, rc, T, f);
    case Block(ss) =>
      BlockHere(ss, st, n, rc);
      AllMarks(ss, Push(st), n, rc, T, f);
    case Break => JumpMarks(st.brks, T, f);
    case Continue => JumpMarks(st.conts, T, f);
    case Return(es) => ReturnFlow(s, st, n, rc, T, f);
    case _ => FlowSimple(s, st, n, rc, T, f);
  }

  lemma JumpMarks(ls: seq<int>, T: set<int>, f: Flow)
    ensures Adds(f, FlowAll(if ls == [] then [] else [Goto(ls[|ls| - 1])], T, f), Last(ls))
  {
    if ls != [] {
      FlowOneItem(Goto(ls[|ls| - 1]), T, f);
    }
  }

  lemma ReturnFlow(s: Stmt, st: St, n: nat, rc: nat, T: set<int>, f: Flow)
    requires s.Return? && Here(s, st, n, rc)
    ensures FlowAll(LowerStmt(s, st).0, T, f) == Flow(true, f.marked)
  {
    hide NamesOf, LowerExprs, InScope, ExprScoped;
    SlotsHere(s, st, n);
    var x, it := LowerExprs(s.es, st.scopes, st.l).0, Plain(Inst.Return(|s.es|));
    ExprsShaped(s.es, st.scopes, st.l, n);
    Structured.RhsLevel(x, T, f, 0);
    FlowAppend(x, [it], T, f);
    FlowOneItem(it, T, f);
  }

  lemma {:induction false} AllMarks(ss: seq<Stmt>, st: St, n: nat, rc: nat, T: set<int>, f: Flow)
    requires ListHere(ss, st, n, rc)
    ensures Adds(f, FlowAll(LowerAll(ss, st).0, T, f), May(st, LowerAll(ss, st).1.l, AnyBreaks(ss)))
    decreases ss, 0
  {
    hide LowerStmt, ListHere, Here, Breaks, FlowItem;
    if ss != [] {
      ListParts(ss, st, n, rc);
      var c := LowerStmt(ss[0], st);
      var d := LowerAll(ss[1..], c.1);
      var g := FlowAll(c.0, T, f);
      StmtMarks(ss[0], st, n, rc, T, f);
      AllMarks(ss[1..], c.1, n, rc, T, g);
      FlowAppend(c.0, d.0, T, f);
    }
  }

  /** The flow through an `if`, part by part. */
  lemma IfFlow(s: Stmt, st: St, n: nat, rc: nat, T: set<int>, f: Flow) returns (f2: Flow, f4: Flow)
    requires s.If? && Here(s, st, n, rc)
    ensures var st1 := Labelled(st, LowerExpr(s.cond, st.scopes, st.l + 2).1);
      var tt := LowerBlock(s.thn, st1);
      var ee := LowerStmt(s.els, tt.1);
      && f2 == FlowAll(tt.0, T, FlowItem(GotoIfNot(st.l), T, f))
      && f4 == FlowAll(ee.0, T, FlowItem(Lab(st.l), T, FlowItem(Goto(st.l + 1), T, f2)))
      && FlowAll(LowerStmt(s, st).0, T, f) == FlowItem(Lab(st.l + 1), T, f4)
  {
    hide NamesOf, Slots, LowerExpr, LowerStmt, LowerBlock, Here, ListHere, ExprScoped, InScope, Follows, FlowAll, FlowItem;
    IfHere(s, st, n, rc);
    var cc := LowerExpr(s.cond, st.scopes, st.l + 2);
    var tt := LowerBlock(s.thn, Labelled(st, cc.1));
    var ee := LowerStmt(s.els, tt.1);
    FlowExpr(s.cond, st.scopes, st.l + 2, n, T, f);
    var r5 := ee.0 + [Lab(st.l + 1)];
    var r4 := [Goto(st.l + 1), Lab(st.l)] + r5;
    var f1 := FlowItem(GotoIfNot(st.l), T, f);
    f2 := FlowAll(tt.0, T, f1);
    var f3 := FlowItem(Lab(st.l), T, FlowItem(Goto(st.l + 1), T, f2));
    f4 := FlowAll(ee.0, T, f3);
    FlowAppend(cc.0, [GotoIfNot(st.l)] + (tt.0 + r4), T, f);
    FlowAppend([GotoIfNot(st.l)], tt.0 + r4, T, f);
    FlowOneItem(GotoIfNot(st.l), T, f);
    FlowAppend(tt.0, r4, T, f1);
    FlowAppend([Goto(st.l + 1), Lab(st.l)], r5, T, f2);
    FlowAppend([Goto(st.l + 1)], [Lab(st.l)], T, f2);
    assert [Goto(st.l + 1)] + [Lab(st.l)] == [Goto(st.l + 1), Lab(st.l)];
    FlowOneItem(Goto(st.l + 1), T, f2);
    FlowOneItem(Lab(st.l), T, FlowItem(Goto(st.l + 1), T, f2));
    FlowAppend(ee.0, [Lab(st.l + 1)], T, f3);
    FlowOneItem(Lab(st.l + 1), T, f4);
  }

  lemma {:induction false} IfMarks(s: Stmt, st: St, n: nat, rc: nat, T: set<int>, f: Flow)
    requires s.If? && Here(s, st, n, rc)
    ensures Adds(f, FlowAll(LowerStmt(s, st).0, T, f), May(st, LowerStmt(s, st).1.l, Breaks(s)))
    decreases s, 2
  {
    hide NamesOf, Slots, LowerExpr, LowerStmt, LowerBlock, Here, ListHere, ExprScoped, InScope, FlowAll, FlowItem;
    IfHere(s, st, n, rc);
    var st1 := Labelled(st, LowerExpr(s.cond, st.scopes, st.l + 2).1);
    var tt := LowerBlock(s.thn, st1);
    var f2, f4 := IfFlow(s, st, n, rc, T, f);
    var f1 := FlowItem(GotoIfNot(st.l), T, f);
    var f2' := FlowItem(Goto(st.l + 1), T, f2);
    var f3 := FlowItem(Lab(st.l), T, f2');
    BlockIs(s.thn, st1);
    AllMarks(s.thn, Push(st1), n, rc, T, f1);
    StmtMarks(s.els, tt.1, n, rc, T, f3);
    ItemMarks(GotoIfNot(st.l), T, f, st.l);
    ItemMarks(Goto(st.l + 1), T, f2, st.l + 1);
    ItemMarks(Lab(st.l), T, f2', st.l);
    ItemMarks(Lab(st.l + 1), T, f4, st.l + 1);
  }

  lemma ItemMarks(it: Item, T: set<int>, f: Flow, l: int)
    requires it == Goto(l) || it == GotoIfNot(l) || it == Lab(l)
    ensures Adds(f, FlowItem(it, T, f), if it.Lab? then {} else {l})
  {
  }

  /** The flow through a loop. */
  lemma ForFlow(s: Stmt, st: St, n: nat, rc: nat, T: set<int>, f: Flow) returns (body: seq<Item>, fb: Flow)
    requires s.For? && Here(s, st, n, rc)
    ensures body == LowerLoop(s, st.l, AfterInit(s, st).1).0 && fb == FlowAll(body, Targets(body), f)
    ensures FlowAll(LowerStmt(s, st).0, T, f) == Flow(fb.dead && st.l + 2 !in fb.marked, fb.marked)
  {
    hide NamesOf, Slots, LowerStmt, LowerLoop, Here, AfterInit, LoopStart, Targets;
    ForIs(s, st);
    var st0, ii := LoopStart(st), AfterInit(s, st);
    body := LowerLoop(s, st.l, ii.1).0;
    fb := FlowAll(body, Targets(body), f);
    InitSimple(s, st, n, rc);
    InitHere(s, st, n, rc);
    FlowSimple(s.init, st0, n, rc, T, f);
    FlowAppend(ii.0, [Loop(st.l, st.l + 2, body)], T, f);
    FlowOneItem(Loop(st.l, st.l + 2, body), T, f);
  }

  lemma InitHere(s: Stmt, st: St, n: nat, rc: nat)
    requires s.For? && Here(s, st, n, rc)
    ensures Here(s.init, LoopStart(st), n, rc) && LowerStmt(s.init, LoopStart(st)) == AfterInit(s, st)
  {
    hide NamesOf, Slots, LowerStmt, LowerLoop, AfterInit, LoopStart, Here, Test, LowerBlock;
    ForHere(s, st, n, rc);
  }

  /** The marks of a loop's body, before its jump back. */
  lemma {:induction false} BodyMarks(s: Stmt, st: St, n: nat, rc: nat, T: set<int>, f: Flow)
    requires s.For? && Here(s, st, n, rc)
    ensures var g := FlowAll(LowerLoop(s, st.l, AfterInit(s, st).1).0, T, f);
      && g.dead
      && Adds(f, g, Range(st.l, st.l + 2) + Range(st.l + 3, LowerStmt(s, st).1.l)
                    + (if s.test.Some? || AnyBreaks(s.body) then {(st.l + 2) as int} else {}))
    decreases s, 1
  {
    hide NamesOf, Slots, LowerExpr, LowerStmt, LowerBlock, LowerLoop, Here, ListHere, ExprScoped, InScope, Test,
      AfterInit, LoopStart, FlowAll, FlowItem;
    ForHere(s, st, n, rc);
    var ii := AfterInit(s, st);
    var cc := Test(s.test, ii.1.scopes, ii.1.l, st.l + 2);
    var st1 := Labelled(ii.1, cc.1);
    var bb := LowerBlock(s.body, st1);
    var pp := LowerStmt(s.post, bb.1);
    var f1, f2 := FlowAll(cc.0, T, f), FlowAll(bb.0, T, FlowAll(cc.0, T, f));
    var f3 := FlowItem(Lab(st.l + 1), T, f2);
    TestFlow(s.test, ii.1.scopes, ii.1.l, st.l + 2, n, T, f);
    BlockIs(s.body, st1);
    AllMarks(s.body, Push(st1), n, rc, T, f1);
    LoopLabelsOf(st, ii.1);
    ItemMarks(Lab(st.l + 1), T, f2, st.l + 1);
    FlowSimple(s.post, bb.1, n, rc, T, f3);
    ItemMarks(Goto(st.l), T, f3, st.l);
    GotoDead(st.l, T, f3);
    BodyFlow(cc.0, bb.0, pp.0, st.l, T, f);
  }

  lemma GotoDead(l: int, T: set<int>, f: Flow)
    ensures FlowItem(Goto(l), T, f).dead
  {
  }

  lemma BodyFlow(cc: seq<Item>, bb: seq<Item>, pp: seq<Item>, l: int, T: set<int>, f: Flow)
    ensures FlowAll(cc + (bb + ([Lab(l + 1)] + (pp + [Goto(l)]))), T, f)
         == FlowItem(Goto(l), T, FlowAll(pp, T, FlowItem(Lab(l + 1), T, FlowAll(bb, T, FlowAll(cc, T, f)))))
  {
    hide FlowAll, FlowItem;
    var f1 := FlowAll(cc, T, f);
    var f2 := FlowAll(bb, T, f1);
    var r := pp + [Goto(l)];
    FlowAppend(cc, bb + ([Lab(l + 1)] + r), T, f);
    FlowAppend(bb, [Lab(l + 1)] + r, T, f1);
    FlowAppend([Lab(l + 1)], r, T, f2);
    FlowOneItem(Lab(l + 1), T, f2);
    var f3 := FlowItem(Lab(l + 1), T, f2);
    FlowAppend(pp, [Goto(l)], T, f3);
    FlowOneItem(Goto(l), T, FlowAll(pp, T, f3));
  }

  lemma TestFlow(test: Option<Expr>, sc: Scopes, l: nat, brk: int, n: nat, T: set<int>, f: Flow)
    requires test.Some? ==> ExprScoped(test.value, NamesOf(sc))
    requires Slots(sc, n)
    ensures Adds(f, FlowAll(Test(test, sc, l, brk).0, T, f), if test.Some? then {brk} else {})
  {
    if test.Some? {
      FlowExpr(test.value, sc, l, n, T, f);
      FlowAppend(LowerExpr(test.value, sc, l).0, [GotoIfNot(brk)], T, f);
      FlowOneItem(GotoIfNot(brk), T, f);
    }
  }

  lemma {:induction false} ForMarks(s: Stmt, st: St, n: nat, rc: nat, T: set<int>, f: Flow)
    requires s.For? && Here(s, st, n, rc)
    ensures Adds(f, FlowAll(LowerStmt(s, st).0, T, f), May(st, LowerStmt(s, st).1.l, false))
    decreases s, 2
  {
    hide NamesOf, Slots, LowerStmt, LowerLoop, Here, AfterInit, LoopStart, Targets, FlowAll, LowerBlock, Test;
    ForHere(s, st, n, rc);
    var body, fb := ForFlow(s, st, n, rc, T, f);
    BodyMarks(s, st, n, rc, Targets(body), f);
  }

  /** No label of the statement is marked yet, and the loop's labels are older. */
  ghost predicate Unmarked(st: St, hi: int, f: Flow) {
    && Range(st.l, hi) !! f.marked
    && Last(st.brks) !! Range(st.l, hi) && Last(st.conts) !! Range(st.l, hi)
  }

  lemma {:induction false} StmtDies(s: Stmt, st: St, n: nat, rc: nat, T: set<int>, f: Flow)
    requires Here(s, st, n, rc) && Terminating(s) && Unmarked(st, LowerStmt(s, st).1.l, f)
    ensures FlowAll(LowerStmt(s, st).0, T, f).dead
    decreases s, 3
  {
    hide NamesOf, Slots, LowerExpr, LowerExprs, InScope, ExprScoped, FlowAll, Range;
    match s
    case If(_, _, _) => IfDies(s, st, n, rc, T, f);
    case For(_, _, _, _) => ForDies(s, st, n, rc, T, f);
    case Block(ss) =>
      BlockHere(ss, st, n, rc);
      AllDies(ss, Push(st), n, rc, T, f);
    case Return(es) => ReturnFlow(s, st, n, rc, T, f);
  }

  lemma {:induction false} AllDies(ss: seq<Stmt>, st: St, n: nat, rc: nat, T: set<int>, f: Flow)
    requires ListHere(ss, st, n, rc) && ListTerminating(ss) && Unmarked(st, LowerAll(ss, st).1.l, f)
    ensures FlowAll(LowerAll(ss, st).0, T, f).dead
    decreases ss, 0
  {
    hide LowerStmt, ListHere, Here, Breaks, Terminating, FlowItem;
    ListParts(ss, st, n, rc);
    var c := LowerStmt(ss[0], st);
    var d := LowerAll(ss[1..], c.1);
    var g := FlowAll(c.0, T, f);
    FlowAppend(c.0, d.0, T, f);
    if |ss| == 1 {
      StmtDies(ss[0], st, n, rc, T, f);
    } else {
      StmtMarks(ss[0], st, n, rc, T, f);
      AllDies(ss[1..], c.1, n, rc, T, g);
    }
  }

  lemma {:induction false} IfDies(s: Stmt, st: St, n: nat, rc: nat, T: set<int>, f: Flow)
    requires s.If? && Here(s, st, n, rc) && Terminating(s) && Unmarked(st, LowerStmt(s, st).1.l, f)
    ensures FlowAll(LowerStmt(s, st).0, T, f).dead
    decreases s, 2
  {
    hide NamesOf, Slots, LowerExpr, LowerStmt, LowerBlock, Here, ListHere, ExprScoped, InScope, FlowAll, FlowItem;
    IfHere(s, st, n, rc);
    var st1 := Labelled(st, LowerExpr(s.cond, st.scopes, st.l + 2).1);
    var tt := LowerBlock(s.thn, st1);
    var f2, f4 := IfFlow(s, st, n, rc, T, f);
    var f1 := FlowItem(GotoIfNot(st.l), T, f);
    var f2' := FlowItem(Goto(st.l + 1), T, f2);
    var f3 := FlowItem(Lab(st.l), T, f2');
    ItemMarks(GotoIfNot(st.l), T, f, st.l);
    BlockIs(s.thn, st1);
    AllMarks(s.thn, Push(st1), n, rc, T, f1);
    AllDies(s.thn, Push(st1), n, rc, T, f1);
    DeadGoto(st.l + 1, T, f2);
    ItemMarks(Lab(st.l), T, f2', st.l);
    StmtMarks(s.els, tt.1, n, rc, T, f3);
    StmtDies(s.els, tt.1, n, rc, T, f3);
    assert st.l + 1 !in f4.marked;
    DeadLabel(st.l + 1, T, f4);
  }

  lemma DeadGoto(l: int, T: set<int>, f: Flow)
    requires f.dead
    ensures FlowItem(Goto(l), T, f) == f
  {
  }

  lemma DeadLabel(l: int, T: set<int>, f: Flow)
    requires f.dead && l !in f.marked
    ensures FlowItem(Lab(l), T, f).dead
  {
  }

  lemma {:induction false} ForDies(s: Stmt, st: St, n: nat, rc: nat, T: set<int>, f: Flow)
    requires s.For? && Here(s, st, n, rc) && Terminating(s) && Unmarked(st, LowerStmt(s, st).1.l, f)
    ensures FlowAll(LowerStmt(s, st).0, T, f).dead
    decreases s, 2
  {
    hide NamesOf, Slots, LowerStmt, LowerLoop, Here, AfterInit, LoopStart, Targets, FlowAll, LowerBlock, Test;
    ForHere(s, st, n, rc);
    var body, fb := ForFlow(s, st, n, rc, T, f);
    BodyMarks(s, st, n, rc, Targets(body), f);
    assert Between(st.l, st.l + 2, LowerStmt(s, st).1.l);
    assert st.l + 2 in Range(st.l, LowerStmt(s, st).1.l);
  }
}
