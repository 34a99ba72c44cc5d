/** The lowering of the fragment to the labelled IR, as functions from the compiler's state
    to the emitted items and its new state. Same order of labels and locals as the compiler. */
module Lower {
  import opened Ir
  import opened Shape
  import opened Ast

  /** Compile-time scopes: the slot of each declared name, innermost scope last. */
  type Scopes = seq<map<string, nat>>

  /** The slot a name refers to, or -1. */
  function Lookup(sc: Scopes, x: string): (r: int)
    ensures r >= -1
  {
    if sc == [] then -1
    else if x in sc[|sc| - 1] then sc[|sc| - 1][x]
    else Lookup(sc[..|sc| - 1], x)
  }

  function AddName(sc: Scopes, x: string, idx: nat): (r: Scopes)
    ensures |r| == |sc|
  {
    if sc == [] then sc else sc[..|sc| - 1] + [sc[|sc| - 1][x := idx]]
  }

  /** An expression's code and the next free label. */
  function LowerExpr(e: Expr, sc: Scopes, l: nat): (seq<Item>, nat) {
    match e
    case Lit(n) => ([Plain(ConstI64(n))], l)
    case BoolLit(b) => ([Plain(ConstBool(FromBool(b)))], l)
    case Var(x) => ([Plain(LocalGet(Lookup(sc, x)))], l)
    case Binary(op, a, b) =>
      var x := LowerExpr(a, sc, l);
      var y := LowerExpr(b, sc, x.1);
      (x.0 + (y.0 + [Plain(Bin(op))]), y.1)
    case AndAlso(a, b) =>
      var x := LowerExpr(a, sc, l + 2);
      var y := LowerExpr(b, sc, x.1);
      (x.0 + [Short(false, l, l + 1, 0, y.0)], y.1)
    case OrElse(a, b) =>
      var x := LowerExpr(a, sc, l + 2);
      var y := LowerExpr(b, sc, x.1);
      (x.0 + [Short(true, l, l + 1, 1, y.0)], y.1)
    case Negate(a) => var x := LowerExpr(a, sc, l); (x.0 + [Plain(Neg)], x.1)
    case Invert(a) => var x := LowerExpr(a, sc, l); (x.0 + [Plain(Not)], x.1)
  }

  function LowerExprs(es: seq<Expr>, sc: Scopes, l: nat): (seq<Item>, nat) {
    if es == [] then ([], l)
    else
      var x := LowerExpr(es[0], sc, l);
      var y := LowerExprs(es[1..], sc, x.1);
      (x.0 + y.0, y.1)
  }

  /** The compiler's state inside a function: scopes, number of locals, next label, and the
      labels that `break` and `continue` go to, innermost loop last. */
  datatype St = St(scopes: Scopes, n: nat, l: nat, brks: seq<int>, conts: seq<int>)

  function Labelled(st: St, l: nat): St {
    st.(l := l)
  }

  /** A new local in the innermost scope; its slot is the old count. */
  function Local(st: St, x: string): St {
    st.(scopes := AddName(st.scopes, x, st.n), n := st.n + 1)
  }

  function Push(st: St): St {
    st.(scopes := st.scopes + [map[]])
  }

  function Pop(st: St): St {
    if st.scopes == [] then st else st.(scopes := st.scopes[..|st.scopes| - 1])
  }

  /** The code that stores the top of the stack in a named variable. */
  function StoreTo(sc: Scopes, x: string): Item {
    if x == BLANK then Plain(Drop) else Plain(LocalSet(Lookup(sc, x)))
  }

  /** Only an assignment makes a loop a three-clause one; otherwise init and post are dropped. */
  predicate IsAssignment(s: Stmt) {
    s.Decl? || s.Assign? || s.OpAssign?
  }

  function Test(test: Option<Expr>, sc: Scopes, l: nat, brk: int): (seq<Item>, nat) {
    match test
    case None => ([], l)
    case Some(e) => var x := LowerExpr(e, sc, l); (x.0 + [GotoIfNot(brk)], x.1)
  }

  function LowerStmt(s: Stmt, st: St): (seq<Item>, St)
    decreases s, 1
  {
    match s
    case Nop => ([], st)
    case Decl(x, e) =>
      var st1 := Local(st, x);
      var c := LowerExpr(e, st1.scopes, st.l);
      (c.0 + [Plain(LocalSet(st.n))], Labelled(st1, c.1))
    case Zero(x, _) => ([Plain(ConstI64(0)), Plain(LocalSet(st.n))], Local(st, x))
    case Assign(x, e) =>
      var c := LowerExpr(e, st.scopes, st.l);
      (c.0 + [StoreTo(st.scopes, x)], Labelled(st, c.1))
    case OpAssign(x, op, e) =>
      var c := LowerExpr(Binary(op, Var(x), e), st.scopes, st.l);
      (c.0 + [StoreTo(st.scopes, x)], Labelled(st, c.1))
    case Inc(x) =>
      (LowerExpr(Binary(Add, Var(x), Lit(1)), st.scopes, st.l).0 + [StoreTo(st.scopes, x)], st)
    case Eval(e) =>
      var c := LowerExpr(e, st.scopes, st.l);
      (c.0 + [Plain(Drop)], Labelled(st, c.1))
    case If(c, t, e) =>
      var elseL, endL := st.l, st.l + 1;
      var cc := LowerExpr(c, st.scopes, st.l + 2);
      var tt := LowerBlock(t, Labelled(st, cc.1));
      var ee := LowerStmt(e, tt.1);
      (cc.0 + ([GotoIfNot(elseL)] + (tt.0 + ([Goto(endL), Lab(elseL)] + (ee.0 + [Lab(endL)])))), ee.1)
    case For(init, test, post, body) =>
      var loopL, contL, brkL := st.l, st.l + 1, st.l + 2;
      var st0 := Push(st.(l := st.l + 3, brks := st.brks + [brkL], conts := st.conts + [contL]));
      var ii := if IsAssignment(init) then LowerStmt(init, st0) else ([], st0);
      var c := LowerLoop(s, loopL, ii.1);
      (ii.0 + [Loop(loopL, brkL, c.0)], Pop(c.1.(brks := st.brks, conts := st.conts)))
    case Break => (if st.brks == [] then [] else [Goto(st.brks[|st.brks| - 1])], st)
    case Continue => (if st.conts == [] then [] else [Goto(st.conts[|st.conts| - 1])], st)
    case Return(es) =>
      var c := LowerExprs(es, st.scopes, st.l);
      (c.0 + [Plain(Inst.Return(|es|))], Labelled(st, c.1))
    case Block(ss) => LowerBlock(ss, st)
  }

  /** The inside of a loop with the labels l, l + 1 and l + 2, after its init. */
  function LowerLoop(s: Stmt, l: int, st: St): (seq<Item>, St)
    requires s.For?
    decreases s, 0
  {
    var cc := Test(s.test, st.scopes, st.l, l + 2);
    var bb := LowerBlock(s.body, Labelled(st, cc.1));
    var pp := if IsAssignment(s.init) then LowerStmt(s.post, bb.1) else ([], bb.1);
    (cc.0 + (bb.0 + ([Lab(l + 1)] + (pp.0 + [Goto(l)]))), pp.1)
  }

  function LowerBlock(ss: seq<Stmt>, st: St): (seq<Item>, St)
    decreases ss, 1
  {
    var c := LowerAll(ss, Push(st));
    (c.0, Pop(c.1))
  }

  function LowerAll(ss: seq<Stmt>, st: St): (seq<Item>, St)
    decreases ss, 0
  {
    if ss == [] then ([], st)
    else
      var c := LowerStmt(ss[0], st);
      var d := LowerAll(ss[1..], c.1);
      (c.0 + d.0, d.1)
  }

  function ParamScope(params: seq<string>): map<string, nat> {
    if params == [] then map[]
    else ParamScope(params[..|params| - 1])[params[|params| - 1] := |params| - 1]
  }

  function Entry(f: Func, l: nat): St {
    St([ParamScope(f.params)], |f.params|, l, [], [])
  }

  /** A whole function: its items, how many slots its frame has, the next free label. */
  function LowerFunc(f: Func, l: nat): (seq<Item>, nat, nat) {
    var c := LowerBlock(f.body, Entry(f, l));
    (if EndsInReturn(Flatten(c.0)) then c.0 else c.0 + [Plain(Inst.Return(0))], c.1.n, c.1.l)
  }
}
