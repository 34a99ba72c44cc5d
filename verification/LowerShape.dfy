/** The lowering emits well-formed shapes: forward jumps inside a level, loops that end in
    their jump back, every label once, one operand-stack height at every label. */
module LowerShape {
  import opened Ir
  import opened Shape
  import opened Ast
  import opened Lower
  import opened Lowered
  import Searches
  import Structured

  // ----- appending levels -----

  lemma {:induction false} HeightAppend(a: seq<Item>, b: seq<Item>, h: int)
    ensures Height(a + b, h) == Height(b, Height(a, h))
    decreases a
  {
    if a == [] {
      assert a + b == b;
    } else {
      assert (a + b)[1..] == a[1..] + b;
      HeightAppend(a[1..], b, ItemHeight(a[0], h));
    }
  }

  lemma {:induction false} OperandsAppend(a: seq<Item>, b: seq<Item>, n: nat)
    ensures OperandsOK(a + b, n) <==> OperandsOK(a, n) && OperandsOK(b, n)
    decreases a
  {
    if a == [] {
      assert a + b == b;
    } else {
      assert (a + b)[1..] == a[1..] + b;
      OperandsAppend(a[1..], b, n);
    }
  }

  lemma {:induction false} FlowAppend(a: seq<Item>, b: seq<Item>, T: set<int>, f: Flow)
    ensures FlowAll(a + b, T, f) == FlowAll(b, T, FlowAll(a, T, f))
    decreases a
  {
    if a == [] {
      assert a + b == b;
    } else {
      assert (a + b)[1..] == a[1..] + b;
      FlowAppend(a[1..], b, T, FlowItem(a[0], T, f));
    }
  }

  lemma {:induction false} ReturnsAppend(a: seq<Item>, b: seq<Item>, T: set<int>, f: Flow, rc: nat)
    ensures ReturnsOK(a + b, T, f, rc) <==> ReturnsOK(a, T, f, rc) && ReturnsOK(b, T, FlowAll(a, T, f), rc)
    decreases a
  {
    if a == [] {
      assert a + b == b;
    } else {
      assert (a + b)[1..] == a[1..] + b;
      ReturnsAppend(a[1..], b, T, FlowItem(a[0], T, f), rc);
    }
  }

  lemma {:induction false} TopAppend(a: seq<Item>, b: seq<Item>)
    ensures TopLabs(a + b) == TopLabs(a) + TopLabs(b)
    decreases a
  {
    if a == [] {
      assert a + b == b;
    } else {
      assert (a + b)[1..] == a[1..] + b;
      TopAppend(a[1..], b);
    }
  }

  // ----- labels -----

  /** The labels defined in the items are distinct and lie in lo..hi. */
  ghost predicate Fresh(items: seq<Item>, lo: int, hi: int) {
    && DistinctLabels(Flatten(items))
    && forall l :: l in CodeLabels(Flatten(items)) ==> lo <= l < hi
  }

  lemma DistinctAppend(a: seq<Inst>, b: seq<Inst>)
    requires DistinctLabels(a) && DistinctLabels(b) && CodeLabels(a) !! CodeLabels(b)
    ensures DistinctLabels(a + b)
  {
    var s := a + b;
    forall i, j | 0 <= i < j < |s| && s[i].Label? && s[j].Label?
      ensures s[i].l != s[j].l
    {
      if i < |a| && j >= |a| {
        Searches.HasCodeLabel(a, i);
        Searches.HasCodeLabel(b, j - |a|);
        assert s[i].l in CodeLabels(a) && s[j].l in CodeLabels(b);
      } else if i < |a| {
        assert s[i] == a[i] && s[j] == a[j];
      } else {
        assert s[i] == b[i - |a|] && s[j] == b[j - |a|];
      }
    }
  }

  lemma FreshAppend(a: seq<Item>, b: seq<Item>, lo: int, mid: int, hi: int)
    requires Fresh(a, lo, mid) && Fresh(b, mid, hi) && lo <= mid <= hi
    ensures Fresh(a + b, lo, hi)
  {
    FlattenAppend(a, b);
    forall l | l in CodeLabels(Flatten(a))
      ensures l !in CodeLabels(Flatten(b))
    {
    }
    DistinctAppend(Flatten(a), Flatten(b));
    Searches.LabelsAppend(Flatten(a), Flatten(b));
  }

  /** Two pieces whose labels do not meet, in any order. */
  lemma FreshBoth(a: seq<Item>, b: seq<Item>, lo: int, hi: int)
    requires Fresh(a, lo, hi) && Fresh(b, lo, hi)
    requires CodeLabels(Flatten(a)) !! CodeLabels(Flatten(b))
    ensures Fresh(a + b, lo, hi)
    ensures CodeLabels(Flatten(a + b)) == CodeLabels(Flatten(a)) + CodeLabels(Flatten(b))
  {
    FlattenAppend(a, b);
    DistinctAppend(Flatten(a), Flatten(b));
    Searches.LabelsAppend(Flatten(a), Flatten(b));
  }

  lemma FreshWider(a: seq<Item>, lo: int, hi: int, lo': int, hi': int)
    requires Fresh(a, lo, hi) && lo' <= lo && hi <= hi'
    ensures Fresh(a, lo', hi')
  {
  }

  lemma FreshOne(it: Item, lo: int, hi: int)
    requires !it.Loop? && !it.Short? && (it.Plain? ==> !it.op.Label?)
    requires it.Lab? ==> lo <= it.l < hi
    ensures Fresh([it], lo, hi)
    ensures CodeLabels(Flatten([it])) == if it.Lab? then {it.l} else {}
  {
    assert [it][1..] == [];
    var i := FlatItem(it)[0];
    assert Flatten([it]) == [i] && [i][1..] == [];
  }

  lemma FreshNone(lo: int, hi: int)
    ensures Fresh([], lo, hi)
  {
  }

  lemma FreshShort(it: Item, lo: int, mid: int, hi: int)
    requires it.Short? && it.tgt == lo && it.end == lo + 1 && lo + 2 <= mid <= hi && Fresh(it.rhs, mid, hi)
    ensures Fresh([it], lo, hi) && forall l :: l in CodeLabels(Flatten([it])) ==> l == lo || l == lo + 1 || mid <= l
  {
    var h := [if it.onTrue then JmpIf(it.tgt) else JmpIfNot(it.tgt)];
    var b := [Jmp(it.end), Label(it.tgt), ConstBool(it.k), Label(it.end)];
    assert [it][1..] == [] && Flatten([it]) == FlatItem(it);
    Searches.ShortLabelsIn(it);
    Searches.LabelsAppend(h, Flatten(it.rhs));
    assert CodeLabels(h) == {};
    DistinctAppend(h, Flatten(it.rhs));
    forall l | l in CodeLabels(b)
      ensures l == lo || l == lo + 1
    {
      var i := Searches.FindCodeLabel(b, l);
    }
    DistinctAppend(h + Flatten(it.rhs), b);
  }

  // ----- names -----

  type Names = seq<set<string>>

  predicate InScope(names: Names, x: string) {
    exists i :: 0 <= i < |names| && x in names[i]
  }

  predicate ExprScoped(e: Expr, names: Names) {
    match e
    case Lit(_) => true
    case BoolLit(_) => true
    case Var(x) => InScope(names, x)
    case Binary(_, a, b) => ExprScoped(a, names) && ExprScoped(b, names)
    case AndAlso(a, b) => ExprScoped(a, names) && ExprScoped(b, names)
    case OrElse(a, b) => ExprScoped(a, names) && ExprScoped(b, names)
    case Negate(a) => ExprScoped(a, names)
    case Invert(a) => ExprScoped(a, names)
  }

  /** The names visible after a statement. */
  function NamesAfter(s: Stmt, names: Names): Names {
    if (s.Decl? || s.Zero?) && names != [] then names[..|names| - 1] + [names[|names| - 1] + {s.x}] else names
  }

  /** Every name used is declared in a surrounding scope, and every return gives rc values. */
  predicate Scoped(s: Stmt, names: Names, rc: nat)
    decreases s, 1
  {
    match s
    case Decl(_, e) => ExprScoped(e, names)
    case Assign(x, e) => (x == BLANK || InScope(names, x)) && ExprScoped(e, names)
    case OpAssign(x, _, e) => InScope(names, x) && ExprScoped(e, names)
    case Inc(x) => InScope(names, x)
    case Eval(e) => ExprScoped(e, names)
    case If(c, t, e) => ExprScoped(c, names) && AllScoped(t, names + [{}], rc) && Scoped(e, names, rc)
    case For(init, test, post, body) =>
      var inner := NamesAfter(init, names + [{}]);
      && Scoped(init, names + [{}], rc) && (test.Some? ==> ExprScoped(test.value, inner))
      && Scoped(post, inner, rc) && AllScoped(body, inner + [{}], rc)
    case Return(es) => |es| == rc && forall i :: 0 <= i < |es| ==> ExprScoped(es[i], names)
    case Block(ss) => AllScoped(ss, names + [{}], rc)
    case _ => true
  }

  predicate AllScoped(ss: seq<Stmt>, names: Names, rc: nat)
    decreases ss, 0
  {
    ss == [] || (Scoped(ss[0], names, rc) && AllScoped(ss[1..], NamesAfter(ss[0], names), rc))
  }

  function NamesOf(sc: Scopes): (r: Names)
    ensures |r| == |sc|
  {
    seq(|sc|, i requires 0 <= i < |sc| => sc[i].Keys)
  }

  lemma {:induction false} LookupFinds(sc: Scopes, n: nat, x: string)
    requires InScope(NamesOf(sc), x) && Slots(sc, n)
    ensures 0 <= Lookup(sc, x) < n
    decreases |sc|
  {
    var k := |sc| - 1;
    if x !in sc[k] {
      var i :| 0 <= i < |sc| && x in NamesOf(sc)[i];
      assert NamesOf(sc[..k])[i] == NamesOf(sc)[i];
      forall i, y | 0 <= i < k && y in sc[..k][i]
        ensures sc[..k][i][y] < n
      {
      }
      LookupFinds(sc[..k], n, x);
    }
  }

  lemma NamesFollow(s: Stmt, st: St)
    requires InFragment(s)
    ensures NamesOf(LowerStmt(s, st).1.scopes) == NamesAfter(s, NamesOf(st.scopes))
  {
    StmtFollows(s, st);
    if (s.Decl? || s.Zero?) && st.scopes != [] {
      var k := |st.scopes| - 1;
      var sc := AddName(st.scopes, s.x, st.n);
      assert LowerStmt(s, st).1.scopes == sc;
      assert NamesOf(sc)[k] == NamesOf(st.scopes)[k] + {s.x};
    }
  }

  lemma NamesPush(sc: Scopes)
    ensures NamesOf(sc + [map[]]) == NamesOf(sc) + [{}]
  {
    var none: map<string, nat> := map[];
    assert none.Keys == {};
  }

  // ----- expressions -----

  /** Straight-line code with short circuits that leaves one value. */
  ghost predicate ExprShape(items: seq<Item>, lo: nat, hi: nat, n: nat) {
    && RhsOK(items) && Fresh(items, lo, hi) && OperandsOK(items, n)
    && (forall h: int {:trigger Height(items, h)} :: h >= 0 ==> Height(items, h) == h + 1)
    && items != [] && (items[0].Plain? ==> !items[0].op.Drop? && !items[0].op.Dup?)
  }

  lemma {:induction false} RhsAppend(a: seq<Item>, b: seq<Item>)
    requires RhsOK(a) && RhsOK(b)
    ensures RhsOK(a + b)
    decreases a
  {
    if a == [] {
      assert a + b == b;
    } else {
      assert (a + b)[1..] == a[1..] + b;
      RhsAppend(a[1..], b);
      if |a| == 1 && b != [] {
        assert RhsItemOK(b[0]);
      }
    }
  }

  lemma ShapeOne(i: Inst, lo: nat, hi: nat, n: nat)
    requires !IsControl(i) && Pops(i) == 0 && Pushes(i) == 1 && !i.Dup? && !i.Drop?
    requires (i.LocalGet? || i.LocalSet? ==> 0 <= i.idx < n)
    ensures ExprShape([Plain(i)], lo, hi, n)
  {
    FreshOne(Plain(i), lo, hi);
    var x := [Plain(i)];
    assert x[1..] == [];
    forall h: int | h >= 0
      ensures Height(x, h) == h + 1
    {
    }
  }

  /** Two operands and an operator, or one and an operator. */
  lemma ShapeThen(a: seq<Item>, b: seq<Item>, i: Inst, lo: nat, mid: nat, hi: nat, n: nat)
    requires ExprShape(a, lo, mid, n) && (ExprShape(b, mid, hi, n) || (b == [] && mid == hi)) && lo <= mid <= hi
    requires !IsControl(i) && !i.LocalGet? && !i.LocalSet?
    requires Pops(i) == (if b == [] then 1 else 2) && Pushes(i) == 1
    ensures ExprShape(a + (b + [Plain(i)]), lo, hi, n)
  {
    var op := [Plain(i)];
    assert op[1..] == [];
    if b == [] {
      FreshNone(mid, hi);
    }
    FreshOne(Plain(i), hi, hi);
    FreshAppend(b, op, mid, hi, hi);
    FreshAppend(a, b + op, lo, mid, hi);
    OperandsAppend(b, op, n);
    OperandsAppend(a, b + op, n);
    RhsAppend(b, op);
    RhsAppend(a, b + op);
    var x := a + (b + op);
    forall h: int | h >= 0
      ensures Height(x, h) == h + 1
    {
      HeightAppend(a, b + op, h);
      HeightAppend(b, op, h + 1);
    }
    assert x[0] == a[0];
  }

  lemma ShapeShort(a: seq<Item>, it: Item, lo: nat, m1: nat, m2: nat, n: nat)
    requires it.Short? && it.k == FromBool(it.onTrue) && it.tgt == lo && it.end == lo + 1 && lo + 2 <= m1 <= m2
    requires ExprShape(a, lo + 2, m1, n) && ExprShape(it.rhs, m1, m2, n)
    ensures ExprShape(a + [it], lo, m2, n)
  {
    var op, x := [it], a + [it];
    assert op[1..] == [];
    FreshShort(it, lo, m1, m2);
    FreshWider(a, lo + 2, m1, lo, m2);
    forall l | l in CodeLabels(Flatten(a))
      ensures l !in CodeLabels(Flatten(op))
    {
    }
    FreshBoth(a, op, lo, m2);
    OperandsAppend(a, op, n);
    RhsAppend(a, op);
    forall h: int | h >= 0
      ensures Height(x, h) == h + 1
    {
      HeightAppend(a, op, h);
      assert Height(it.rhs, h) == h + 1;
    }
    assert x[0] == a[0];
  }

  lemma {:induction false} ExprShaped(e: Expr, sc: Scopes, l: nat, n: nat)
    requires ExprScoped(e, NamesOf(sc)) && Slots(sc, n)
    ensures ExprShape(LowerExpr(e, sc, l).0, l, LowerExpr(e, sc, l).1, n)
    decreases e
  {
    hide ExprShape, NamesOf, Slots, InScope;
    ExprLabels(e, sc, l);
    match e
    case Lit(v) => ShapeOne(ConstI64(v), l, l, n);
    case BoolLit(b) => ShapeOne(ConstBool(FromBool(b)), l, l, n);
    case Var(x) =>
      LookupFinds(sc, n, x);
      ShapeOne(LocalGet(Lookup(sc, x)), l, l, n);
    case Binary(op, a, b) =>
      var x := LowerExpr(a, sc, l);
      ExprShaped(a, sc, l, n);
      ExprShaped(b, sc, x.1, n);
      ExprLabels(a, sc, l);
      ExprLabels(b, sc, x.1);
      NotEmpty(LowerExpr(b, sc, x.1).0, x.1, LowerExpr(b, sc, x.1).1, n);
      ShapeThen(x.0, LowerExpr(b, sc, x.1).0, Bin(op), l, x.1, LowerExpr(b, sc, x.1).1, n);
    case AndAlso(a, b) =>
      var x := LowerExpr(a, sc, l + 2);
      var y := LowerExpr(b, sc, x.1);
      ExprShaped(a, sc, l + 2, n);
      ExprShaped(b, sc, x.1, n);
      ExprLabels(a, sc, l + 2);
      ExprLabels(b, sc, x.1);
      ShapeShort(x.0, Short(false, l, l + 1, 0, y.0), l, x.1, y.1, n);
    case OrElse(a, b) =>
      var x := LowerExpr(a, sc, l + 2);
      var y := LowerExpr(b, sc, x.1);
      ExprShaped(a, sc, l + 2, n);
      ExprShaped(b, sc, x.1, n);
      ExprLabels(a, sc, l + 2);
      ExprLabels(b, sc, x.1);
      ShapeShort(x.0, Short(true, l, l + 1, 1, y.0), l, x.1, y.1, n);
    case Negate(a) =>
      var x := LowerExpr(a, sc, l);
      ExprShaped(a, sc, l, n);
      ExprLabels(a, sc, l);
      assert [] + [Plain(Neg)] == [Plain(Neg)];
      ShapeThen(x.0, [], Neg, l, x.1, x.1, n);
    case Invert(a) =>
      var x := LowerExpr(a, sc, l);
      ExprShaped(a, sc, l, n);
      ExprLabels(a, sc, l);
      assert [] + [Plain(Not)] == [Plain(Not)];
      ShapeThen(x.0, [], Not, l, x.1, x.1, n);
  }

  lemma NotEmpty(items: seq<Item>, lo: nat, hi: nat, n: nat)
    requires ExprShape(items, lo, hi, n)
    ensures items != []
  {
  }

  /** Several expressions leave several values. */
  ghost predicate ExprsShape(items: seq<Item>, lo: nat, hi: nat, n: nat, k: nat) {
    && RhsOK(items) && Fresh(items, lo, hi) && OperandsOK(items, n)
    && (forall h: int {:trigger Height(items, h)} :: h >= 0 ==> Height(items, h) == h + k)
    && (items != [] && items[0].Plain? ==> !items[0].op.Drop? && !items[0].op.Dup?)
  }

  lemma {:induction false} ExprsShaped(es: seq<Expr>, sc: Scopes, l: nat, n: nat)
    requires (forall i :: 0 <= i < |es| ==> ExprScoped(es[i], NamesOf(sc))) && Slots(sc, n)
    ensures ExprsShape(LowerExprs(es, sc, l).0, l, LowerExprs(es, sc, l).1, n, |es|)
  {
    hide NamesOf, Slots, LowerExpr;
    if es == [] {
      FreshNone(l, l);
    } else {
      var x := LowerExpr(es[0], sc, l);
      var y := LowerExprs(es[1..], sc, x.1);
      ExprShaped(es[0], sc, l, n);
      ExprsShaped(es[1..], sc, x.1, n);
      ExprLabels(es[0], sc, l);
      ExprsLabels(es[1..], sc, x.1);
      MoreShape(x.0, y.0, l, x.1, y.1, n, |es| - 1);
    }
  }

  lemma MoreShape(a: seq<Item>, b: seq<Item>, lo: nat, mid: nat, hi: nat, n: nat, k: nat)
    requires ExprShape(a, lo, mid, n) && ExprsShape(b, mid, hi, n, k) && lo <= mid <= hi
    ensures ExprsShape(a + b, lo, hi, n, k + 1)
  {
    FreshAppend(a, b, lo, mid, hi);
    OperandsAppend(a, b, n);
    RhsAppend(a, b);
    forall h: int | h >= 0
      ensures Height(a + b, h) == h + (k + 1)
    {
      HeightAppend(a, b, h);
    }
  }

  // ----- statements: labels, operands, heights -----

  predicate Between(lo: int, x: int, hi: int) {
    lo <= x < hi
  }

  function Range(lo: int, hi: int): set<int> {
    set x | lo <= x < hi && Between(lo, x, hi)
  }

  /** Code between two points with an empty operand stack, whose labels lie in S. */
  ghost predicate Clean(items: seq<Item>, n: nat, S: set<int>) {
    && Height(items, 0) == 0 && OperandsOK(items, n)
    && DistinctLabels(Flatten(items)) && CodeLabels(Flatten(items)) <= S
  }

  lemma CleanAppend(a: seq<Item>, b: seq<Item>, n: nat, S: set<int>, S': set<int>)
    requires Clean(a, n, S) && Clean(b, n, S') && S !! S'
    ensures Clean(a + b, n, S + S')
  {
    HeightAppend(a, b, 0);
    OperandsAppend(a, b, n);
    FlattenAppend(a, b);
    Searches.LabelsAppend(Flatten(a), Flatten(b));
    DistinctAppend(Flatten(a), Flatten(b));
  }

  lemma CleanWider(a: seq<Item>, n: nat, S: set<int>, S': set<int>)
    requires Clean(a, n, S) && S <= S'
    ensures Clean(a, n, S')
  {
  }

  lemma CleanNone(n: nat)
    ensures Clean([], n, {})
  {
  }

  lemma CleanLab(l: int, n: nat)
    ensures Clean([Lab(l)], n, {l})
  {
    FreshOne(Lab(l), l, l + 1);
    assert [Lab(l)][1..] == [];
  }

  lemma CleanGoto(l: int, n: nat)
    ensures Clean([Goto(l)], n, {})
  {
    FreshOne(Goto(l), 0, 0);
    assert [Goto(l)][1..] == [];
  }

  /** A value and what uses it up. */
  lemma CleanExpr(x: seq<Item>, it: Item, lo: nat, hi: nat, n: nat)
    requires ExprShape(x, lo, hi, n)
    requires it.GotoIfNot? || it == Plain(Inst.Drop) || (it.Plain? && it.op.LocalSet? && 0 <= it.op.idx < n)
    ensures Clean(x + [it], n, Range(lo, hi))
  {
    FreshOne(it, lo, hi);
    FreshBoth(x, [it], lo, hi);
    HeightAppend(x, [it], 0);
    OperandsAppend(x, [it], n);
    assert [it][1..] == [];
    assert Height(x, 0) == 1;
  }

  lemma CleanLoop(it: Item, n: nat, S: set<int>)
    requires it.Loop? && Clean(it.body, n, S) && it.head != it.brk && it.head !in S && it.brk !in S
    ensures Clean([it], n, S + {it.head, it.brk})
  {
    assert [it][1..] == [] && Flatten([it]) == FlatItem(it);
    var h, f, b := [Label(it.head)], Flatten(it.body), [Label(it.brk)];
    assert h[1..] == [] && b[1..] == [];
    assert CodeLabels(h) == {it.head};
    assert CodeLabels(b) == {it.brk};
    Searches.LabelsAppend(h, f);
    Searches.LabelsAppend(h + f, b);
    DistinctAppend(h, f);
    DistinctAppend(h + f, b);
  }

  lemma ExprClean(e: Expr, sc: Scopes, l: nat, it: Item, n: nat)
    requires ExprScoped(e, NamesOf(sc)) && Slots(sc, n)
    requires it.GotoIfNot? || it == Plain(Inst.Drop) || (it.Plain? && it.op.LocalSet? && 0 <= it.op.idx < n)
    ensures Clean(LowerExpr(e, sc, l).0 + [it], n, Range(l, LowerExpr(e, sc, l).1))
  {
    ExprShaped(e, sc, l, n);
    CleanExpr(LowerExpr(e, sc, l).0, it, l, LowerExpr(e, sc, l).1, n);
  }

  /** A store goes to a slot of the frame. */
  lemma StoreFits(sc: Scopes, x: string, n: nat)
    requires x == BLANK || InScope(NamesOf(sc), x)
    requires Slots(sc, n)
    ensures StoreTo(sc, x) == Plain(Inst.Drop) || (StoreTo(sc, x).Plain? && StoreTo(sc, x).op.LocalSet?
                                                   && 0 <= StoreTo(sc, x).op.idx < n)
  {
    if x != BLANK {
      LookupFinds(sc, n, x);
    }
  }

  /** What the lemmas about a statement's shape ask for: n is the size of the frame. */
  ghost predicate Here(s: Stmt, st: St, n: nat, rc: nat) {
    && InFragment(s) && Scoped(s, NamesOf(st.scopes), rc) && Slots(st.scopes, st.n) && st.scopes != []
    && LowerStmt(s, st).1.n <= n
  }

  lemma {:induction false} StmtClean(s: Stmt, st: St, n: nat, rc: nat)
    requires Here(s, st, n, rc)
    ensures Clean(LowerStmt(s, st).0, n, Range(st.l, LowerStmt(s, st).1.l))
    decreases s, 3
  {
    hide Clean, NamesOf, Slots, LowerExpr, InScope, ExprScoped;
    SlotsHere(s, st, n);
    match s
    case If(_, _, _) => IfClean(s, st, n, rc);
    case For(_, _, _, _) => ForClean(s, st, n, rc);
    case Block(ss) => BlockClean(ss, st, n, rc);
    case Nop => CleanNone(n); CleanWider([], n, {}, Range(st.l, st.l));
    case Decl(x, e) =>
      SameCode(e, st.scopes, x, st.n, st.l);
      ExprClean(e, st.scopes, st.l, Plain(LocalSet(st.n)), n);
    case Zero(x, _) =>
      assert LowerExpr(Lit(0), st.scopes, st.l) == ([Plain(ConstI64(0))], st.l) by { LitIs(st.scopes, st.l); }
      assert [Plain(ConstI64(0))] + [Plain(LocalSet(st.n))] == [Plain(ConstI64(0)), Plain(LocalSet(st.n))];
      assert ExprScoped(Lit(0), NamesOf(st.scopes)) by { LitScoped(NamesOf(st.scopes)); }
      ExprClean(Lit(0), st.scopes, st.l, Plain(LocalSet(st.n)), n);
    case Assign(x, e) =>
      StoreFits(st.scopes, x, n);
      ExprClean(e, st.scopes, st.l, StoreTo(st.scopes, x), n);
    case OpAssign(x, op, e) =>
      StoreFits(st.scopes, x, n);
      assert ExprScoped(Binary(op, Var(x), e), NamesOf(st.scopes)) by { OpScoped(op, x, e, NamesOf(st.scopes)); }
      ExprClean(Binary(op, Var(x), e), st.scopes, st.l, StoreTo(st.scopes, x), n);
    case Inc(x) =>
      StoreFits(st.scopes, x, n);
      assert ExprScoped(Binary(Add, Var(x), Lit(1)), NamesOf(st.scopes)) by {
        LitScoped(NamesOf(st.scopes));
        OpScoped(Add, x, Lit(1), NamesOf(st.scopes));
      }
      ExprClean(Binary(Add, Var(x), Lit(1)), st.scopes, st.l, StoreTo(st.scopes, x), n);
      assert LowerExpr(Binary(Add, Var(x), Lit(1)), st.scopes, st.l).1 == st.l by { IncLabels(x, st.scopes, st.l); }
    case Eval(e) => ExprClean(e, st.scopes, st.l, Plain(Inst.Drop), n);
    case Return(es) =>
      ExprsShaped(es, st.scopes, st.l, n);
      CleanReturn(LowerExprs(es, st.scopes, st.l).0, |es|, st.l, LowerExprs(es, st.scopes, st.l).1, n);
    case Break =>
      CleanNone(n);
      if st.brks != [] {
        CleanGoto(st.brks[|st.brks| - 1], n);
      }
      CleanWider(LowerStmt(s, st).0, n, {}, Range(st.l, st.l));
    case Continue =>
      CleanNone(n);
      if st.conts != [] {
        CleanGoto(st.conts[|st.conts| - 1], n);
      }
      CleanWider(LowerStmt(s, st).0, n, {}, Range(st.l, st.l));
  }

  lemma LitIs(sc: Scopes, l: nat)
    ensures LowerExpr(Lit(0), sc, l) == ([Plain(ConstI64(0))], l)
  {
  }

  lemma LitScoped(names: Names)
    ensures ExprScoped(Lit(0), names) && ExprScoped(Lit(1), names)
  {
  }

  lemma OpScoped(op: BinOp, x: string, e: Expr, names: Names)
    requires InScope(names, x) && ExprScoped(e, names)
    ensures ExprScoped(Binary(op, Var(x), e), names)
  {
  }

  lemma SlotsHere(s: Stmt, st: St, n: nat)
    requires InFragment(s) && Slots(st.scopes, st.n) && LowerStmt(s, st).1.n <= n
    ensures Slots(st.scopes, n) && st.n <= n && (s.Decl? || s.Zero? ==> st.n < n)
  {
    StmtFollows(s, st);
    SlotsUp(st.scopes, st.n, n);
  }

  lemma CleanReturn(x: seq<Item>, k: nat, lo: nat, hi: nat, n: nat)
    requires ExprsShape(x, lo, hi, n, k)
    ensures Clean(x + [Plain(Inst.Return(k))], n, Range(lo, hi))
  {
    var it := Plain(Inst.Return(k));
    FreshOne(it, lo, hi);
    FreshBoth(x, [it], lo, hi);
    HeightAppend(x, [it], 0);
    OperandsAppend(x, [it], n);
    assert [it][1..] == [];
    assert Height(x, 0) == k;
  }

  /** What holds for the parts of an `if`. */
  lemma IfHere(s: Stmt, st: St, n: nat, rc: nat)
    requires s.If? && Here(s, st, n, rc)
    ensures var cc := LowerExpr(s.cond, st.scopes, st.l + 2);
      var st1 := Labelled(st, cc.1);
      var tt := LowerBlock(s.thn, st1);
      var ee := LowerStmt(s.els, tt.1);
      && LowerStmt(s, st) ==
         (cc.0 + ([GotoIfNot(st.l)] + (tt.0 + ([Goto(st.l + 1), Lab(st.l)] + (ee.0 + [Lab(st.l + 1)])))), ee.1)
      && ExprScoped(s.cond, NamesOf(st.scopes)) && Slots(st.scopes, n)
      && ListHere(s.thn, Push(st1), n, rc) && Here(s.els, tt.1, n, rc)
      && st.l + 2 <= cc.1 <= tt.1.l <= ee.1.l && tt.1.scopes == st.scopes && Follows(st1, tt.1)
  {
    hide LowerExpr, LowerBlock, NamesOf, Slots, InScope, ExprScoped;
    ExprLabels(s.cond, st.scopes, st.l + 2);
    var st1 := Labelled(st, LowerExpr(s.cond, st.scopes, st.l + 2).1);
    BlockFollows(s.thn, st1);
    var st2 := LowerBlock(s.thn, st1).1;
    StmtFollows(s.els, st2);
    SlotsHere(s, st, n);
    PushSlots(st.scopes, st.n);
    NamesPush(st.scopes);
    BlockIs(s.thn, st1);
  }

  lemma BlockIs(ss: seq<Stmt>, st: St)
    ensures LowerBlock(ss, st).0 == LowerAll(ss, Push(st)).0 && LowerBlock(ss, st).1.n == LowerAll(ss, Push(st)).1.n
    ensures LowerBlock(ss, st).1.l == LowerAll(ss, Push(st)).1.l
  {
  }

  ghost predicate ListHere(ss: seq<Stmt>, st: St, n: nat, rc: nat) {
    && AllInFragment(ss) && AllScoped(ss, NamesOf(st.scopes), rc) && Slots(st.scopes, st.n) && st.scopes != []
    && LowerAll(ss, st).1.n <= n
  }

  lemma {:induction false} IfClean(s: Stmt, st: St, n: nat, rc: nat)
    requires s.If? && Here(s, st, n, rc)
    ensures Clean(LowerStmt(s, st).0, n, Range(st.l, LowerStmt(s, st).1.l))
    decreases s, 2
  {
    hide Clean, NamesOf, Slots, LowerExpr, InScope, ExprScoped, LowerStmt, LowerBlock, Here, ListHere, Range, Follows;
    IfHere(s, st, n, rc);
    var cc := LowerExpr(s.cond, st.scopes, st.l + 2);
    var st1 := Labelled(st, cc.1);
    var tt := LowerBlock(s.thn, st1);
    var ee := LowerStmt(s.els, tt.1);
    ExprClean(s.cond, st.scopes, st.l + 2, GotoIfNot(st.l), n);
    BlockIs(s.thn, st1);
    AllClean(s.thn, Push(st1), n, rc);
    StmtClean(s.els, tt.1, n, rc);
    IfJoin(cc.0, tt.0, ee.0, st.l, cc.1, tt.1.l, ee.1.l, n);
  }

  lemma IfJoin(cc: seq<Item>, tt: seq<Item>, ee: seq<Item>, l: nat, m1: nat, m2: nat, m3: nat, n: nat)
    requires l + 2 <= m1 <= m2 <= m3
    requires Clean(cc + [GotoIfNot(l)], n, Range(l + 2, m1)) && Clean(tt, n, Range(m1, m2)) && Clean(ee, n, Range(m2, m3))
    ensures Clean(cc + ([GotoIfNot(l)] + (tt + ([Goto(l + 1), Lab(l)] + (ee + [Lab(l + 1)])))), n, Range(l, m3))
  {
    hide Clean;
    CleanLab(l + 1, n);
    CleanAppend(ee, [Lab(l + 1)], n, Range(m2, m3), {l + 1});
    CleanGoto(l + 1, n);
    CleanLab(l, n);
    CleanAppend([Goto(l + 1)], [Lab(l)], n, {}, {l});
    assert [Goto(l + 1)] + [Lab(l)] == [Goto(l + 1), Lab(l)];
    var r5, S5 := ee + [Lab(l + 1)], Range(m2, m3) + {l + 1};
    CleanAppend([Goto(l + 1), Lab(l)], r5, n, {} + {l}, S5);
    var r3, S3 := [Goto(l + 1), Lab(l)] + r5, {} + {l} + S5;
    CleanAppend(tt, r3, n, Range(m1, m2), S3);
    CleanAppend(cc + [GotoIfNot(l)], tt + r3, n, Range(l + 2, m1), Range(m1, m2) + S3);
    assert cc + [GotoIfNot(l)] + (tt + r3) == cc + ([GotoIfNot(l)] + (tt + r3));
    CleanWider(cc + ([GotoIfNot(l)] + (tt + r3)), n, Range(l + 2, m1) + (Range(m1, m2) + S3), Range(l, m3));
  }

  lemma {:induction false} BlockClean(ss: seq<Stmt>, st: St, n: nat, rc: nat)
    requires Here(Block(ss), st, n, rc)
    ensures Clean(LowerBlock(ss, st).0, n, Range(st.l, LowerBlock(ss, st).1.l))
    decreases ss, 1
  {
    hide Clean, NamesOf, Slots, InScope;
    NamesPush(st.scopes);
    PushSlots(st.scopes, st.n);
    BlockIs(ss, st);
    AllClean(ss, Push(st), n, rc);
  }

  /** The head and the rest of a list. */
  lemma ListParts(ss: seq<Stmt>, st: St, n: nat, rc: nat)
    requires ss != [] && ListHere(ss, st, n, rc)
    ensures var c := LowerStmt(ss[0], st);
      && Here(ss[0], st, n, rc) && ListHere(ss[1..], c.1, n, rc) && st.l <= c.1.l <= LowerAll(ss[1..], c.1).1.l
      && LowerAll(ss, st) == (c.0 + LowerAll(ss[1..], c.1).0, LowerAll(ss[1..], c.1).1)
      && Follows(st, c.1)
  {
    hide NamesOf, Slots, LowerStmt, InFragment, Scoped;
    StmtFollows(ss[0], st);
    NamesFollow(ss[0], st);
    AllFollows(ss[1..], LowerStmt(ss[0], st).1);
  }

  lemma {:induction false} AllClean(ss: seq<Stmt>, st: St, n: nat, rc: nat)
    requires ListHere(ss, st, n, rc)
    ensures Clean(LowerAll(ss, st).0, n, Range(st.l, LowerAll(ss, st).1.l))
    decreases ss, 0
  {
    hide Clean, LowerStmt, ListHere, Here, Follows;
    if ss == [] {
      CleanNone(n);
      CleanWider([], n, {}, Range(st.l, st.l));
    } else {
      ListParts(ss, st, n, rc);
      var c := LowerStmt(ss[0], st);
      var d := LowerAll(ss[1..], c.1);
      StmtClean(ss[0], st, n, rc);
      AllClean(ss[1..], c.1, n, rc);
      CleanAppend(c.0, d.0, n, Range(st.l, c.1.l), Range(c.1.l, d.1.l));
      CleanWider(c.0 + d.0, n, Range(st.l, c.1.l) + Range(c.1.l, d.1.l), Range(st.l, d.1.l));
    }
  }

  /** What holds for the parts of a loop. */
  lemma ForHere(s: Stmt, st: St, n: nat, rc: nat)
    requires s.For? && Here(s, st, n, rc)
    ensures var st0, ii := LoopStart(st), AfterInit(s, st);
      var cc := Test(s.test, ii.1.scopes, ii.1.l, st.l + 2);
      var st1 := Labelled(ii.1, cc.1);
      var bb := LowerBlock(s.body, st1);
      var pp := LowerStmt(s.post, bb.1);
      && LowerLoop(s, st.l, ii.1) == (cc.0 + (bb.0 + ([Lab(st.l + 1)] + (pp.0 + [Goto(st.l)]))), pp.1)
      && LowerStmt(s.init, st0) == ii && Here(s.init, st0, n, rc)
      && (s.test.Some? ==> ExprScoped(s.test.value, NamesOf(ii.1.scopes))) && Slots(ii.1.scopes, n)
      && ListHere(s.body, Push(st1), n, rc) && Here(s.post, bb.1, n, rc) && Simple(s.post)
      && st.l + 3 <= ii.1.l <= cc.1 <= bb.1.l <= pp.1.l == LowerStmt(s, st).1.l
      && bb.1.scopes == ii.1.scopes && bb.1.brks == bb.1.brks && Follows(st0, ii.1) && Follows(st1, bb.1)
  {
    hide LowerExpr, LowerBlock, NamesOf, Slots, InScope, ExprScoped, Test, LowerStmt;
    ForIs(s, st);
    LoopParts(s);
    var st0, ii := LoopStart(st), AfterInit(s, st);
    PostIs(s, st.l, ii.1);
    NamesPush(st.scopes);
    PushSlots(st.scopes, st.n);
    StmtFollows(s.init, st0);
    NamesFollow(s.init, st0);
    var cc := Test(s.test, ii.1.scopes, ii.1.l, st.l + 2);
    TestLabels(s.test, ii.1.scopes, ii.1.l, st.l + 2);
    var st1 := Labelled(ii.1, cc.1);
    BlockFollows(s.body, st1);
    BlockIs(s.body, st1);
    var st2 := LowerBlock(s.body, st1).1;
    StmtFollows(s.post, st2);
    NamesPush(ii.1.scopes);
    PushSlots(ii.1.scopes, ii.1.n);
    SlotsUp(ii.1.scopes, ii.1.n, n);
  }

  lemma PostIs(s: Stmt, l: int, st: St)
    requires s.For? && InFragment(s)
    ensures var cc := Test(s.test, st.scopes, st.l, l + 2);
      var bb := LowerBlock(s.body, Labelled(st, cc.1));
      var pp := LowerStmt(s.post, bb.1);
      LowerLoop(s, l, st) == (cc.0 + (bb.0 + ([Lab(l + 1)] + (pp.0 + [Goto(l)]))), pp.1)
    ensures forall st0 :: !IsAssignment(s.init) ==> LowerStmt(s.init, st0) == ([], st0)
  {
    hide LowerBlock, Test;
  }

  lemma {:induction false} ForClean(s: Stmt, st: St, n: nat, rc: nat)
    requires s.For? && Here(s, st, n, rc)
    ensures Clean(LowerStmt(s, st).0, n, Range(st.l, LowerStmt(s, st).1.l))
    decreases s, 2
  {
    hide Clean, NamesOf, Slots, LowerExpr, InScope, ExprScoped, LowerStmt, LowerBlock, LowerLoop, Here, ListHere, Range,
      Follows, Test, AfterInit, LoopStart;
    ForIs(s, st);
    ForHere(s, st, n, rc);
    var st0, ii := LoopStart(st), AfterInit(s, st);
    var cc := Test(s.test, ii.1.scopes, ii.1.l, st.l + 2);
    var st1 := Labelled(ii.1, cc.1);
    var bb := LowerBlock(s.body, st1);
    var pp := LowerStmt(s.post, bb.1);
    StmtClean(s.init, st0, n, rc);
    TestClean(s.test, ii.1.scopes, ii.1.l, st.l + 2, n);
    BlockIs(s.body, st1);
    AllClean(s.body, Push(st1), n, rc);
    StmtClean(s.post, bb.1, n, rc);
    assert st0.l == st.l + 3 by { StartLabel(st); }
    ForJoin(ii.0, cc.0, bb.0, pp.0, st.l, ii.1.l, cc.1, bb.1.l, pp.1.l, n);
  }

  lemma StartLabel(st: St)
    ensures LoopStart(st).l == st.l + 3
  {
  }

  lemma TestClean(test: Option<Expr>, sc: Scopes, l: nat, brk: int, n: nat)
    requires test.Some? ==> ExprScoped(test.value, NamesOf(sc))
    requires Slots(sc, n)
    ensures Clean(Test(test, sc, l, brk).0, n, Range(l, Test(test, sc, l, brk).1))
  {
    hide Clean, NamesOf, Slots, LowerExpr, ExprScoped;
    CleanNone(n);
    CleanWider([], n, {}, Range(l, l));
    if test.Some? {
      ExprClean(test.value, sc, l, GotoIfNot(brk), n);
    }
  }

  lemma ForJoin(ii: seq<Item>, cc: seq<Item>, bb: seq<Item>, pp: seq<Item>, l: nat, m0: nat, m1: nat, m2: nat, m3: nat, n: nat)
    requires l + 3 <= m0 <= m1 <= m2 <= m3
    requires Clean(ii, n, Range(l + 3, m0)) && Clean(cc, n, Range(m0, m1)) && Clean(bb, n, Range(m1, m2))
    requires Clean(pp, n, Range(m2, m3))
    ensures Clean(ii + [Loop(l, l + 2, cc + (bb + ([Lab(l + 1)] + (pp + [Goto(l)]))))], n, Range(l, m3))
  {
    hide Clean;
    CleanGoto(l, n);
    CleanAppend(pp, [Goto(l)], n, Range(m2, m3), {});
    CleanLab(l + 1, n);
    var r4, S4 := pp + [Goto(l)], Range(m2, m3) + {};
    CleanAppend([Lab(l + 1)], r4, n, {l + 1}, S4);
    var r3, S3 := [Lab(l + 1)] + r4, {l + 1} + S4;
    CleanAppend(bb, r3, n, Range(m1, m2), S3);
    CleanAppend(cc, bb + r3, n, Range(m0, m1), Range(m1, m2) + S3);
    var it, S := Loop(l, l + 2, cc + (bb + r3)), Range(m0, m1) + (Range(m1, m2) + S3);
    CleanLoop(it, n, S);
    CleanAppend(ii, [it], n, Range(l + 3, m0), S + {l, l + 2});
    CleanWider(ii + [it], n, Range(l + 3, m0) + (S + {l, l + 2}), Range(l, m3));
  }
}