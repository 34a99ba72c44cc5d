/** The fragment on which the lowering is proved right, and facts about the compiler's
    bookkeeping: scopes, slots, labels. */
module Lowered {
  import opened Ir
  import opened Shape
  import opened Ast
  import opened Lower

  // ----- the fragment -----

  predicate Mentions(e: Expr, x: string) {
    match e
    case Lit(_) => false
    case BoolLit(_) => false
    case Var(y) => x == y
    case Binary(_, a, b) => Mentions(a, x) || Mentions(b, x)
    case AndAlso(a, b) => Mentions(a, x) || Mentions(b, x)
    case OrElse(a, b) => Mentions(a, x) || Mentions(b, x)
    case Negate(a) => Mentions(a, x)
    case Invert(a) => Mentions(a, x)
  }

  predicate Simple(s: Stmt) {
    s.Nop? || s.Assign? || s.OpAssign? || s.Inc? || s.Eval?
  }

  /** An initialiser does not read the name it declares; a loop has an assignment as its
      init, or neither init nor post; the rest is what the parser guarantees. */
  predicate InFragment(s: Stmt)
    decreases s, 1
  {
    match s
    case Decl(x, e) => !Mentions(e, x)
    case OpAssign(x, _, _) => x != BLANK
    case Inc(x) => x != BLANK
    case If(_, t, e) => AllInFragment(t) && InFragment(e) && (e.Nop? || e.If? || e.Block?)
    case For(init, _, post, body) =>
      && (if init.Decl? || init.Assign? || init.OpAssign? then InFragment(init) && Simple(post) && InFragment(post)
          else init.Nop? && post.Nop?)
      && AllInFragment(body)
    case Block(ss) => AllInFragment(ss)
    case _ => true
  }

  predicate AllInFragment(ss: seq<Stmt>)
    decreases ss, 0
  {
    ss == [] || (InFragment(ss[0]) && AllInFragment(ss[1..]))
  }

  // ----- scopes -----

  /** Every name has a slot of its own below n. */
  ghost predicate Slots(sc: Scopes, n: nat) {
    && (forall i, x :: 0 <= i < |sc| && x in sc[i] ==> sc[i][x] < n)
    && (forall i, x, j, y :: 0 <= i < |sc| && x in sc[i] && 0 <= j < |sc| && y in sc[j] && sc[i][x] == sc[j][y] ==>
          i == j && x == y)
  }

  lemma SlotsUp(sc: Scopes, n: nat, n': nat)
    requires Slots(sc, n) && n <= n'
    ensures Slots(sc, n')
  {
    forall i, x | 0 <= i < |sc| && x in sc[i]
      ensures sc[i][x] < n'
    {
    }
  }

  lemma SlotsAdd(sc: Scopes, n: nat, x: string)
    requires Slots(sc, n)
    ensures Slots(AddName(sc, x, n), n + 1)
  {
    var t := AddName(sc, x, n);
    forall i, y | 0 <= i < |t| && y in t[i]
      ensures t[i][y] == n || (y in sc[i] && t[i][y] == sc[i][y])
      ensures t[i][y] == n ==> i == |sc| - 1 && y == x
    {
    }
  }

  /** What lowering a statement does to the state. */
  ghost predicate Follows(st: St, st': St) {
    && st.n <= st'.n && st.l <= st'.l && st'.brks == st.brks && st'.conts == st.conts
    && |st'.scopes| == |st.scopes|
    && (st.scopes != [] ==> st'.scopes[..|st.scopes| - 1] == st.scopes[..|st.scopes| - 1])
    && (Slots(st.scopes, st.n) ==> Slots(st'.scopes, st'.n))
  }

  lemma {:induction false} ExprLabels(e: Expr, sc: Scopes, l: nat)
    ensures LowerExpr(e, sc, l).1 >= l
    decreases e
  {
    match e
    case Binary(_, a, b) => ExprLabels(a, sc, l); ExprLabels(b, sc, LowerExpr(a, sc, l).1);
    case AndAlso(a, b) => ExprLabels(a, sc, l + 2); ExprLabels(b, sc, LowerExpr(a, sc, l + 2).1);
    case OrElse(a, b) => ExprLabels(a, sc, l + 2); ExprLabels(b, sc, LowerExpr(a, sc, l + 2).1);
    case Negate(a) => ExprLabels(a, sc, l);
    case Invert(a) => ExprLabels(a, sc, l);
    case _ =>
  }

  lemma {:induction false} ExprsLabels(es: seq<Expr>, sc: Scopes, l: nat)
    ensures LowerExprs(es, sc, l).1 >= l
  {
    if es != [] {
      ExprLabels(es[0], sc, l);
      ExprsLabels(es[1..], sc, LowerExpr(es[0], sc, l).1);
    }
  }

  lemma FollowsTrans(a: St, b: St, c: St)
    requires Follows(a, b) && Follows(b, c)
    ensures Follows(a, c)
  {
  }

  lemma FollowsLabel(st: St, l: nat)
    requires st.l <= l
    ensures Follows(st, Labelled(st, l)) && Labelled(st, l).scopes == st.scopes
  {
  }

  lemma FollowsLocal(st: St, x: string)
    ensures Follows(st, Local(st, x))
  {
    if Slots(st.scopes, st.n) {
      SlotsAdd(st.scopes, st.n, x);
    }
  }

  lemma PushSlots(sc: Scopes, n: nat)
    requires Slots(sc, n)
    ensures Slots(sc + [map[]], n)
  {
    var t := sc + [map[]];
    forall i, x | 0 <= i < |t| && x in t[i]
      ensures i < |sc| && t[i] == sc[i]
    {
    }
  }

  /** Leaving a scope: what was outside is as before. */
  lemma FollowsScope(st: St, st': St)
    requires Follows(Push(st), st')
    ensures Follows(st, Pop(st')) && Pop(st').scopes == st.scopes
  {
    var n := |st.scopes|;
    assert Push(st).scopes[..n] == st.scopes;
    if Slots(st.scopes, st.n) {
      SlotsUp(st.scopes, st.n, st'.n);
    }
  }

  lemma {:induction false} StmtFollows(s: Stmt, st: St)
    requires InFragment(s)
    ensures Follows(st, LowerStmt(s, st).1)
    ensures !s.Decl? && !s.Zero? ==> LowerStmt(s, st).1.scopes == st.scopes
    decreases s, 1
  {
    hide Follows, LowerExpr, Slots;
    match s
    case Decl(x, e) =>
      var st1 := Local(st, x);
      FollowsLocal(st, x);
      ExprLabels(e, st1.scopes, st.l);
      FollowsLabel(st1, LowerExpr(e, st1.scopes, st.l).1);
      FollowsTrans(st, st1, LowerStmt(s, st).1);
    case Zero(x, _) => FollowsLocal(st, x);
    case Assign(x, e) =>
      ExprLabels(e, st.scopes, st.l);
      FollowsLabel(st, LowerExpr(e, st.scopes, st.l).1);
    case OpAssign(x, op, e) =>
      ExprLabels(Binary(op, Var(x), e), st.scopes, st.l);
      FollowsLabel(st, LowerExpr(Binary(op, Var(x), e), st.scopes, st.l).1);
    case Eval(e) =>
      ExprLabels(e, st.scopes, st.l);
      FollowsLabel(st, LowerExpr(e, st.scopes, st.l).1);
    case Return(es) =>
      ExprsLabels(es, st.scopes, st.l);
      FollowsLabel(st, LowerExprs(es, st.scopes, st.l).1);
    case If(c, t, e) =>
      var cc := LowerExpr(c, st.scopes, st.l + 2);
      ExprLabels(c, st.scopes, st.l + 2);
      FollowsLabel(st, cc.1);
      var st1 := Labelled(st, cc.1);
      BlockFollows(t, st1);
      var st2 := LowerBlock(t, st1).1;
      StmtFollows(e, st2);
      FollowsTrans(st, st1, st2);
      FollowsTrans(st, st2, LowerStmt(e, st2).1);
    case For(_, _, _, _) =>
      ForFollows(s, st);
    case Block(ss) =>
      BlockFollows(ss, st);
    case _ =>
      FollowsLabel(st, st.l);
  }

  /** The state in which a loop's init is lowered, and the one after it. */
  function LoopStart(st: St): St {
    Push(st.(l := st.l + 3, brks := st.brks + [st.l + 2], conts := st.conts + [st.l + 1]))
  }

  function AfterInit(s: Stmt, st: St): (seq<Item>, St)
    requires s.For?
  {
    if IsAssignment(s.init) then LowerStmt(s.init, LoopStart(st)) else ([], LoopStart(st))
  }

  lemma {:induction false} ForFollows(s: Stmt, st: St)
    requires s.For? && InFragment(s)
    ensures Follows(st, LowerStmt(s, st).1) && LowerStmt(s, st).1.scopes == st.scopes
    decreases s, 0
  {
    hide LowerStmt, LowerLoop, InFragment, Follows, LoopStart;
    ForIs(s, st);
    LoopParts(s);
    var st0, st1 := LoopStart(st), AfterInit(s, st).1;
    if IsAssignment(s.init) {
      StmtFollows(s.init, st0);
    } else {
      FollowsLabel(st0, st0.l);
    }
    LoopFollows(s, st.l, st1);
    var c := LowerLoop(s, st.l, st1);
    FollowsTrans(st0, st1, c.1);
    var base := st.(l := st.l + 3);
    FollowsRename(st, base, st0, c.1);
    FollowsScope(base, c.1.(brks := st.brks, conts := st.conts));
  }

  lemma ForIs(s: Stmt, st: St)
    requires s.For?
    ensures var ii := AfterInit(s, st);
      var c := LowerLoop(s, st.l, ii.1);
      LowerStmt(s, st) ==
        (ii.0 + [Loop(st.l, st.l + 2, c.0)], Pop(c.1.(brks := st.brks, conts := st.conts)))
  {
    hide LowerLoop;
  }

  lemma IfIs(s: Stmt, st: St)
    requires s.If?
    ensures var cc := LowerExpr(s.cond, st.scopes, st.l + 2);
      var tt := LowerBlock(s.thn, Labelled(st, cc.1));
      var ee := LowerStmt(s.els, tt.1);
      LowerStmt(s, st) ==
        (cc.0 + ([GotoIfNot(st.l)] + (tt.0 + ([Goto(st.l + 1), Lab(st.l)] + (ee.0 + [Lab(st.l + 1)])))), ee.1)
  {
    hide LowerExpr, LowerBlock;
  }

  lemma IncLabels(x: string, sc: Scopes, l: nat)
    ensures LowerExpr(Binary(Add, Var(x), Lit(1)), sc, l).1 == l
  {
  }

  lemma FollowsRename(st: St, base: St, st0: St, c: St)
    requires base == st.(l := st.l + 3) && st0 == LoopStart(st) && Follows(st0, c)
    ensures Follows(Push(base), c.(brks := st.brks, conts := st.conts))
    ensures forall d :: Follows(base, d) ==> Follows(st, d)
  {
  }

  lemma LoopParts(s: Stmt)
    requires s.For? && InFragment(s)
    ensures IsAssignment(s.init) ==> InFragment(s.init) && Simple(s.post) && InFragment(s.post)
    ensures !IsAssignment(s.init) ==> s.init.Nop? && s.post.Nop?
    ensures AllInFragment(s.body)
  {
  }

  lemma TestLabels(test: Option<Expr>, sc: Scopes, l: nat, brk: int)
    ensures Test(test, sc, l, brk).1 >= l
  {
    if test.Some? {
      ExprLabels(test.value, sc, l);
    }
  }

  lemma {:induction false} LoopFollows(s: Stmt, l: int, st: St)
    requires s.For? && InFragment(s)
    ensures Follows(st, LowerLoop(s, l, st).1) && LowerLoop(s, l, st).1.scopes == st.scopes
    decreases s, 0, 0
  {
    hide Follows, LowerExpr, Slots, LowerBlock, LowerStmt, Test, InFragment, AllInFragment;
    LoopParts(s);
    var cc := Test(s.test, st.scopes, st.l, l + 2);
    TestLabels(s.test, st.scopes, st.l, l + 2);
    FollowsLabel(st, cc.1);
    var st1 := Labelled(st, cc.1);
    BlockFollows(s.body, st1);
    var st2 := LowerBlock(s.body, st1).1;
    FollowsTrans(st, st1, st2);
    if IsAssignment(s.init) {
      StmtFollows(s.post, st2);
      FollowsTrans(st, st2, LowerStmt(s.post, st2).1);
    }
  }

  lemma {:induction false} BlockFollows(ss: seq<Stmt>, st: St)
    requires AllInFragment(ss)
    ensures Follows(st, LowerBlock(ss, st).1) && LowerBlock(ss, st).1.scopes == st.scopes
    decreases ss, 2
  {
    hide Follows, LowerAll;
    AllFollows(ss, Push(st));
    FollowsScope(st, LowerAll(ss, Push(st)).1);
  }

  lemma {:induction false} AllFollows(ss: seq<Stmt>, st: St)
    requires AllInFragment(ss)
    ensures Follows(st, LowerAll(ss, st).1)
    decreases ss, 1
  {
    hide Follows, LowerStmt;
    if ss == [] {
      FollowsLabel(st, st.l);
    } else {
      StmtFollows(ss[0], st);
      var st1 := LowerStmt(ss[0], st).1;
      AllFollows(ss[1..], st1);
      FollowsTrans(st, st1, LowerAll(ss[1..], st1).1);
    }
  }

  /** Code that does not mention a name does not depend on its slot. */
  lemma {:induction false} SameCode(e: Expr, sc: Scopes, x: string, i: nat, l: nat)
    requires !Mentions(e, x)
    ensures LowerExpr(e, AddName(sc, x, i), l) == LowerExpr(e, sc, l)
    decreases e
  {
    var t := AddName(sc, x, i);
    match e
    case Var(y) =>
      if sc != [] {
        assert t[..|t| - 1] == sc[..|sc| - 1];
      }
    case Binary(_, a, b) => SameCode(a, sc, x, i, l); SameCode(b, sc, x, i, LowerExpr(a, sc, l).1);
    case AndAlso(a, b) => SameCode(a, sc, x, i, l + 2); SameCode(b, sc, x, i, LowerExpr(a, sc, l + 2).1);
    case OrElse(a, b) => SameCode(a, sc, x, i, l + 2); SameCode(b, sc, x, i, LowerExpr(a, sc, l + 2).1);
    case Negate(a) => SameCode(a, sc, x, i, l);
    case Invert(a) => SameCode(a, sc, x, i, l);
    case _ =>
  }
}
