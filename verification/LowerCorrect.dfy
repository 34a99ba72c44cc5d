/** The lowering preserves meaning: the labelled code does what direct evaluation does. */
module LowerCorrect {
  import opened Ir
  import opened Shape
  import opened Ast
  import opened Lower
  import opened Lowered

  // ----- values and environments in the machine -----

  function Enc(m: Machine, v: Value): int {
    match v
    case IntV(i) => i % Modulus(m)
    case BoolV(b) => FromBool(b)
  }

  function EncAll(m: Machine, vs: seq<Value>): (r: seq<int>)
    ensures |r| == |vs|
  {
    seq(|vs|, i requires 0 <= i < |vs| => Enc(m, vs[i]))
  }

  /** Every variable in scope has its value in its slot. */
  ghost predicate Rel(m: Machine, sc: Scopes, env: Env, locals: seq<int>) {
    && |sc| == |env|
    && (forall i :: 0 <= i < |sc| ==> sc[i].Keys == env[i].Keys)
    && (forall i, x :: 0 <= i < |sc| && x in sc[i] ==>
          sc[i][x] < |locals| && Fits(m, env[i][x]) && locals[sc[i][x]] == Enc(m, env[i][x]))
  }

  lemma WrapFits(m: Machine, x: int)
    ensures Fits(m, IntV(Wrap(m, x))) && Wrap(m, x) % Modulus(m) == x % Modulus(m)
  {
    if m.Vm32? {
      WrapFits32(x);
    } else {
      WrapFits64(x);
    }
  }

  lemma WrapFits32(x: int)
    ensures var y := x % TWO32;
      var z := if y >= TWO32 / 2 then y - TWO32 else y;
      -(TWO32 / 2) <= z < TWO32 / 2 && z % TWO32 == y
  {
  }

  lemma WrapFits64(x: int)
    ensures var y := x % TWO64;
      var z := if y >= TWO64 / 2 then y - TWO64 else y;
      -(TWO64 / 2) <= z < TWO64 / 2 && z % TWO64 == y
  {
  }

  lemma SignedEnc(m: Machine, i: int)
    requires Fits(m, IntV(i))
    ensures Signed(m, i % Modulus(m)) == i
  {
    if m.Vm32? {
      SignedBack32(i);
    } else {
      SignedBack64(i);
    }
  }

  lemma SignedBack32(i: int)
    requires -(TWO32 / 2) <= i < TWO32 / 2
    ensures i % TWO32 % TWO32 == i % TWO32 && i % TWO32 == if i < 0 then i + TWO32 else i
  {
  }

  lemma SignedBack64(i: int)
    requires -(TWO64 / 2) <= i < TWO64 / 2
    ensures i % TWO64 % TWO64 == i % TWO64 && i % TWO64 == if i < 0 then i + TWO64 else i
  {
  }

  lemma ModAddSub(m: Machine, a: int, b: int)
    ensures (a % Modulus(m) + b % Modulus(m)) % Modulus(m) == (a + b) % Modulus(m)
    ensures (a % Modulus(m) - b % Modulus(m)) % Modulus(m) == (a - b) % Modulus(m)
  {
    var M := Modulus(m);
    var q, r, x, y := a / M, b / M, a % M, b % M;
    assert a == M * q + x && b == M * r + y;
    hide Modulus;
    assert M * q + M * r == M * (q + r) && M * q - M * r == M * (q - r);
    ModShift(m, x + y, q + r);
    ModShift(m, x - y, q - r);
  }

  lemma ModShift(m: Machine, x: int, k: int)
    ensures (x + Modulus(m) * k) % Modulus(m) == x % Modulus(m)
  {
    if m.Vm32? {
      assert Modulus(m) == TWO32;
    } else {
      assert Modulus(m) == TWO64;
    }
  }

  lemma ModMul(m: Machine, a: int, b: int)
    ensures (a % Modulus(m) * (b % Modulus(m))) % Modulus(m) == (a * b) % Modulus(m)
  {
    var M := Modulus(m);
    var q, r, x, y := a / M, b / M, a % M, b % M;
    assert a == M * q + x && b == M * r + y;
    hide Modulus;
    ProductParts(M, q, x, r, y);
    ModShift(m, x * y, q * (M * r + y) + x * r);
  }

  lemma ProductParts(M: int, q: int, x: int, r: int, y: int)
    ensures (M * q + x) * (M * r + y) == x * y + M * (q * (M * r + y) + x * r)
  {
    var b := M * r + y;
    assert (M * q + x) * b == M * q * b + x * b;
    assert x * b == x * (M * r) + x * y;
    assert M * (q * b + x * r) == M * (q * b) + M * (x * r);
    assert M * q * b == M * (q * b) && x * (M * r) == M * (x * r);
  }

  lemma BinEnc(m: Machine, op: BinOp, a: Value, b: Value, v: Value)
    requires Fits(m, a) && Fits(m, b) && BinaryValue(m, op, a, b) == Some(v)
    ensures Fits(m, v) && BinVal(m, op, Enc(m, a), Enc(m, b)) == Enc(m, v)
  {
    if a.IntV? {
      IntEnc(m, op, a.i, b.i);
    } else {
      assert Modulus(m) >= 4;
    }
  }

  lemma IntEnc(m: Machine, op: BinOp, a: int, b: int)
    requires Fits(m, IntV(a)) && Fits(m, IntV(b))
    ensures var v := BinaryValue(m, op, IntV(a), IntV(b)).value;
      Fits(m, v) && BinVal(m, op, a % Modulus(m), b % Modulus(m)) == Enc(m, v)
  {
    hide Signed;
    var M := Modulus(m);
    match op
    case Add => WrapFits(m, a + b); ModAddSub(m, a, b);
    case Sub => WrapFits(m, a - b); ModAddSub(m, a, b);
    case Mul => WrapFits(m, a * b); ModMul(m, a, b);
    case _ => SignedEnc(m, a); SignedEnc(m, b);
  }

  lemma NegEnc(m: Machine, i: int)
    ensures Fits(m, IntV(Wrap(m, -i))) && NegVal(m, i % Modulus(m)) == Wrap(m, -i) % Modulus(m)
  {
    hide Signed;
    WrapFits(m, -i);
    ModAddSub(m, 0, i);
    assert 0 % Modulus(m) == 0;
  }

  // ----- variables -----

  lemma {:induction false} GetRel(m: Machine, sc: Scopes, env: Env, locals: seq<int>, x: string)
    requires Rel(m, sc, env, locals) && Get(env, x).Some?
    ensures 0 <= Lookup(sc, x) < |locals| && Fits(m, Get(env, x).value)
    ensures locals[Lookup(sc, x)] == Enc(m, Get(env, x).value)
    decreases |sc|
  {
    var n := |sc| - 1;
    if x !in env[n] {
      PopRel(m, sc, env, locals);
      GetRel(m, sc[..n], env[..n], locals, x);
    }
  }

  lemma PopRel(m: Machine, sc: Scopes, env: Env, locals: seq<int>)
    requires Rel(m, sc, env, locals) && sc != []
    ensures Rel(m, sc[..|sc| - 1], env[..|env| - 1], locals)
  {
    var s, e := sc[..|sc| - 1], env[..|env| - 1];
    forall i, x | 0 <= i < |s| && x in s[i]
      ensures s[i][x] < |locals| && Fits(m, e[i][x]) && locals[s[i][x]] == Enc(m, e[i][x])
    {
      assert x in sc[i];
    }
  }

  lemma PushRel(m: Machine, sc: Scopes, env: Env, locals: seq<int>)
    requires Rel(m, sc, env, locals)
    ensures Rel(m, sc + [map[]], env + [map[]], locals)
  {
    var s, e := sc + [map[]], env + [map[]];
    forall i, x | 0 <= i < |s| && x in s[i]
      ensures s[i][x] < |locals| && Fits(m, e[i][x]) && locals[s[i][x]] == Enc(m, e[i][x])
    {
      assert x in sc[i];
    }
  }

  /** The scope that holds x. */
  lemma {:induction false} Where(env: Env, sc: Scopes, x: string, v: Value) returns (k: nat)
    requires |sc| == |env| && (forall i :: 0 <= i < |sc| ==> sc[i].Keys == env[i].Keys)
    requires Set(env, x, v).Some?
    ensures k < |env| && x in env[k] && Lookup(sc, x) == sc[k][x]
    ensures Set(env, x, v).value == env[k := env[k][x := v]]
    decreases |env|
  {
    var n := |env| - 1;
    if x in env[n] {
      k := n;
    } else {
      k := Where(env[..n], sc[..n], x, v);
      assert Set(env, x, v).value == env[..n][k := env[k][x := v]] + [env[n]];
    }
  }

  lemma SetRel(m: Machine, sc: Scopes, n: nat, env: Env, locals: seq<int>, x: string, v: Value)
    requires Rel(m, sc, env, locals) && Slots(sc, n) && Set(env, x, v).Some? && Fits(m, v)
    ensures 0 <= Lookup(sc, x) < |locals|
    ensures Rel(m, sc, Set(env, x, v).value, locals[Lookup(sc, x) := Enc(m, v)])
  {
    hide Slots, Fits, Lookup, Set;
    var k := Where(env, sc, x, v);
    var e, l := Set(env, x, v).value, locals[sc[k][x] := Enc(m, v)];
    forall i, y | 0 <= i < |sc| && y in sc[i]
      ensures sc[i][y] < |l| && Fits(m, e[i][y]) && l[sc[i][y]] == Enc(m, e[i][y])
    {
      if !(i == k && y == x) {
        OwnSlots(sc, n, i, y, k, x);
      }
    }
  }

  lemma OwnSlots(sc: Scopes, n: nat, i: nat, y: string, k: nat, x: string)
    requires Slots(sc, n) && i < |sc| && k < |sc| && y in sc[i] && x in sc[k] && !(i == k && y == x)
    ensures sc[i][y] != sc[k][x]
  {
  }

  lemma DeclareRel(m: Machine, sc: Scopes, n: nat, env: Env, locals: seq<int>, x: string, v: Value)
    requires Rel(m, sc, env, locals) && Slots(sc, n) && sc != [] && n < |locals| && Fits(m, v)
    ensures Rel(m, AddName(sc, x, n), Declare(env, x, v), locals[n := Enc(m, v)])
  {
    var s, e, l := AddName(sc, x, n), Declare(env, x, v), locals[n := Enc(m, v)];
    forall i, y | 0 <= i < |s| && y in s[i]
      ensures s[i][y] < |l| && Fits(m, e[i][y]) && l[s[i][y]] == Enc(m, e[i][y])
    {
      if !(i == |sc| - 1 && y == x) {
        assert y in sc[i] && s[i][y] == sc[i][y];
      }
    }
  }

  // ----- code and runs -----

  ghost predicate At(code: seq<Inst>, pc: nat, part: seq<Inst>) {
    pc + |part| <= |code| && code[pc..pc + |part|] == part
  }

  lemma AtSplit(code: seq<Inst>, pc: nat, a: seq<Inst>, b: seq<Inst>)
    requires At(code, pc, a + b)
    ensures At(code, pc, a) && At(code, pc + |a|, b)
  {
    assert code[pc..pc + |a|] == (a + b)[..|a|];
    assert code[pc + |a|..pc + |a| + |b|] == (a + b)[|a|..];
  }

  lemma AtFirst(code: seq<Inst>, pc: nat, part: seq<Inst>)
    requires At(code, pc, part) && part != []
    ensures pc < |code| && code[pc] == part[0]
  {
    assert code[pc..pc + |part|][0] == code[pc];
  }

  /** The items a and then b. */
  lemma ItemsSplit(code: seq<Inst>, pc: nat, a: seq<Item>, b: seq<Item>)
    requires At(code, pc, Flatten(a + b))
    ensures At(code, pc, Flatten(a)) && At(code, pc + |Flatten(a)|, Flatten(b))
    ensures |Flatten(a + b)| == |Flatten(a)| + |Flatten(b)|
  {
    FlattenAppend(a, b);
    AtSplit(code, pc, Flatten(a), Flatten(b));
  }

  lemma OneItem(code: seq<Inst>, pc: nat, it: Item)
    requires At(code, pc, Flatten([it])) && !it.Loop? && !it.Short?
    ensures pc < |code| && |Flatten([it])| == 1 && code[pc] == FlatItem(it)[0]
  {
    FlatOne(it);
    assert |FlatItem(it)| == 1;
    hide At, Flatten, FlatItem;
    AtFirst(code, pc, Flatten([it]));
  }

  /** The machine gets from c to d. */
  ghost predicate Reach(m: Machine, code: seq<Inst>, c: Conf, d: Conf) {
    exists k: nat :: Run(m, code, c, k) == d
  }

  lemma ReachTrans(m: Machine, code: seq<Inst>, a: Conf, b: Conf, c: Conf)
    requires Reach(m, code, a, b) && Reach(m, code, b, c)
    ensures Reach(m, code, a, c)
  {
    hide Run;
    var j: nat :| Run(m, code, a, j) == b;
    var k: nat :| Run(m, code, b, k) == c;
    RunAdd(m, code, a, j, k);
    assert Run(m, code, a, j + k) == c;
  }

  lemma ReachStep(m: Machine, code: seq<Inst>, a: Conf)
    ensures Reach(m, code, a, Step(m, code, a))
  {
    assert Run(m, code, Step(m, code, a), 0) == Step(m, code, a);
    assert Run(m, code, a, 1) == Step(m, code, a);
  }

  lemma ReachSelf(m: Machine, code: seq<Inst>, a: Conf)
    ensures Reach(m, code, a, a)
  {
    assert Run(m, code, a, 0) == a;
  }

  /** Still running after n steps. */
  ghost predicate Busy(m: Machine, code: seq<Inst>, c: Conf, n: nat) {
    Run(m, code, c, n).Running?
  }

  lemma BusyLater(m: Machine, code: seq<Inst>, a: Conf, b: Conf, n: nat)
    requires Reach(m, code, a, b) && Busy(m, code, b, n)
    ensures Busy(m, code, a, n)
  {
    hide Run;
    var j: nat :| Run(m, code, a, j) == b;
    RunAdd(m, code, a, j, n);
    RunAdd(m, code, a, n, j);
    if !Run(m, code, a, n).Running? {
      RunHalted(m, code, Run(m, code, a, n), j);
    }
  }

  lemma BusyStep(m: Machine, code: seq<Inst>, a: Conf, n: nat)
    requires a.Running? && Busy(m, code, Step(m, code, a), n)
    ensures Busy(m, code, a, n + 1)
  {
  }

  // ----- expressions -----

  function With(s: State, v: int): (t: State)
    ensures t.locals == s.locals
  {
    s.(stack := s.stack + [v])
  }

  function WithAll(s: State, vs: seq<int>): (t: State)
    ensures t.locals == s.locals
  {
    s.(stack := s.stack + vs)
  }

  /** The code at pc, of the given length, pushes v and does nothing else. */
  ghost predicate Pushed(m: Machine, code: seq<Inst>, pc: nat, len: nat, s: State, v: int) {
    Reach(m, code, Running(pc, s), Running(pc + len, With(s, v)))
  }

  lemma PlainReach(m: Machine, code: seq<Inst>, pc: nat, i: Inst, s: State)
    requires At(code, pc, Flatten([Plain(i)])) && CanRun(i, s)
    ensures Reach(m, code, Running(pc, s), Running(pc + 1, Apply(m, i, s))) && |Flatten([Plain(i)])| == 1
  {
    OneItem(code, pc, Plain(i));
    ReachStep(m, code, Running(pc, s));
  }

  lemma {:induction false} ExprSim(m: Machine, e: Expr, sc: Scopes, l: nat, code: seq<Inst>, pc: nat, env: Env,
                                   s: State, v: Value)
    requires At(code, pc, Flatten(LowerExpr(e, sc, l).0)) && DistinctLabels(code)
    requires Rel(m, sc, env, s.locals) && Value1(m, e, env) == Some(v)
    ensures Pushed(m, code, pc, |Flatten(LowerExpr(e, sc, l).0)|, s, Enc(m, v)) && Fits(m, v)
    decreases e, 1
  {
    hide DistinctLabels, Rel, At, Reach, Flatten;
    match e
    case Lit(n) => LitSim(m, n, code, pc, s);
    case BoolLit(b) => BoolSim(m, b, code, pc, s);
    case Var(x) =>
      GetRel(m, sc, env, s.locals, x);
      PlainReach(m, code, pc, LocalGet(Lookup(sc, x)), s);
    case Binary(_, _, _) => BinarySim(m, e, sc, l, code, pc, env, s, v);
    case AndAlso(_, _) => AndSim(m, e, sc, l, code, pc, env, s, v);
    case OrElse(_, _) => OrSim(m, e, sc, l, code, pc, env, s, v);
    case Negate(a) =>
      UnarySim(m, a, Neg, sc, l, code, pc, env, s);
      NegEnc(m, Value1(m, a, env).value.i);
    case Invert(a) => UnarySim(m, a, Not, sc, l, code, pc, env, s);
  }

  lemma LitSim(m: Machine, n: nat, code: seq<Inst>, pc: nat, s: State)
    requires At(code, pc, Flatten([Plain(ConstI64(n))])) && n < Modulus(m) / 2
    ensures Pushed(m, code, pc, |Flatten([Plain(ConstI64(n))])|, s, Enc(m, IntV(n))) && Fits(m, IntV(n))
  {
    PlainReach(m, code, pc, ConstI64(n), s);
    assert n % TWO64 == n && n % Modulus(m) == n;
  }

  lemma BoolSim(m: Machine, b: bool, code: seq<Inst>, pc: nat, s: State)
    requires At(code, pc, Flatten([Plain(ConstBool(FromBool(b)))]))
    ensures Pushed(m, code, pc, |Flatten([Plain(ConstBool(FromBool(b)))])|, s, FromBool(b))
  {
    PlainReach(m, code, pc, ConstBool(FromBool(b)), s);
  }

  lemma UnarySim(m: Machine, a: Expr, i: Inst, sc: Scopes, l: nat, code: seq<Inst>, pc: nat, env: Env, s: State)
    requires (i.Neg? || i.Not?) && At(code, pc, Flatten(LowerExpr(a, sc, l).0 + [Plain(i)])) && DistinctLabels(code)
    requires Rel(m, sc, env, s.locals) && Value1(m, a, env).Some?
    ensures var x := Enc(m, Value1(m, a, env).value);
      Pushed(m, code, pc, |Flatten(LowerExpr(a, sc, l).0 + [Plain(i)])|, s,
             if i.Neg? then NegVal(m, x) else NotVal(m, x))
    decreases a, 2
  {
    var items, v := LowerExpr(a, sc, l).0, Value1(m, a, env).value;
    ItemsSplit(code, pc, items, [Plain(i)]);
    ExprSim(m, a, sc, l, code, pc, env, s, v);
    hide Rel, At, Reach, Flatten, LowerExpr, Run;
    var s1 := With(s, Enc(m, v));
    var p1 := pc + |Flatten(items)|;
    PlainReach(m, code, p1, i, s1);
    assert s1.stack[..|s.stack|] == s.stack;
    ReachTrans(m, code, Running(pc, s), Running(p1, s1), Running(p1 + 1, Apply(m, i, s1)));
  }

  lemma {:induction false} BinarySim(m: Machine, e: Expr, sc: Scopes, l: nat, code: seq<Inst>, pc: nat, env: Env,
                                     s: State, v: Value)
    requires e.Binary? && At(code, pc, Flatten(LowerExpr(e, sc, l).0)) && DistinctLabels(code)
    requires Rel(m, sc, env, s.locals) && Value1(m, e, env) == Some(v)
    ensures Pushed(m, code, pc, |Flatten(LowerExpr(e, sc, l).0)|, s, Enc(m, v)) && Fits(m, v)
    decreases e, 0
  {
    hide Rel, At, Reach, Flatten, LowerExpr, Run, DistinctLabels, Value1, BinaryValue, With, Apply, CanRun;
    BinaryIs(m, e, sc, l, env);
    var x := LowerExpr(e.left, sc, l);
    var y := LowerExpr(e.right, sc, x.1);
    var a, b := Value1(m, e.left, env).value, Value1(m, e.right, env).value;
    var i := Bin(e.op);
    ItemsSplit(code, pc, x.0, y.0 + [Plain(i)]);
    var p1 := pc + |Flatten(x.0)|;
    ItemsSplit(code, p1, y.0, [Plain(i)]);
    var p2 := p1 + |Flatten(y.0)|;
    ExprSim(m, e.left, sc, l, code, pc, env, s, a);
    var s1 := With(s, Enc(m, a));
    ExprSim(m, e.right, sc, x.1, code, p1, env, s1, b);
    BinEnc(m, e.op, a, b, v);
    TwoPop(m, e.op, s, Enc(m, a), Enc(m, b));
    var s2 := With(s1, Enc(m, b));
    PlainReach(m, code, p2, i, s2);
    ReachTrans(m, code, Running(pc, s), Running(p1, s1), Running(p2, s2));
    ReachTrans(m, code, Running(pc, s), Running(p2, s2), Running(p2 + 1, Apply(m, i, s2)));
  }

  lemma BinaryIs(m: Machine, e: Expr, sc: Scopes, l: nat, env: Env)
    requires e.Binary? && Value1(m, e, env).Some?
    ensures var x := LowerExpr(e.left, sc, l);
      LowerExpr(e, sc, l).0 == x.0 + (LowerExpr(e.right, sc, x.1).0 + [Plain(Bin(e.op))])
    ensures Value1(m, e.left, env).Some? && Value1(m, e.right, env).Some?
    ensures BinaryValue(m, e.op, Value1(m, e.left, env).value, Value1(m, e.right, env).value) == Value1(m, e, env)
  {
  }

  lemma TwoPop(m: Machine, op: BinOp, s: State, a: int, b: int)
    ensures var t := With(With(s, a), b);
      CanRun(Bin(op), t) && Apply(m, Bin(op), t) == With(s, BinVal(m, op, a, b))
  {
    assert (s.stack + [a] + [b])[..|s.stack|] == s.stack;
  }

  lemma {:induction false} AndSim(m: Machine, e: Expr, sc: Scopes, l: nat, code: seq<Inst>, pc: nat, env: Env,
                                  s: State, v: Value)
    requires e.AndAlso? && At(code, pc, Flatten(LowerExpr(e, sc, l).0)) && DistinctLabels(code)
    requires Rel(m, sc, env, s.locals) && Value1(m, e, env) == Some(v)
    ensures Pushed(m, code, pc, |Flatten(LowerExpr(e, sc, l).0)|, s, Enc(m, v)) && Fits(m, v)
    decreases e, 0
  {
    hide Rel, At, Pushed, Flatten, LowerExpr, DistinctLabels, Value1;
    var left := AndAlsoIs(m, e, sc, l, env, v);
    var x := LowerExpr(e.left, sc, l + 2);
    var it := Short(false, l, l + 1, 0, LowerExpr(e.right, sc, x.1).0);
    ItemsSplit(code, pc, x.0, [it]);
    ExprSim(m, e.left, sc, l + 2, code, pc, env, s, BoolV(left));
    if left != false {
      ShortPieces(code, pc + |Flatten(x.0)|, it);
      ExprSim(m, e.right, sc, x.1, code, pc + |Flatten(x.0)| + 1, env, s, v);
    }
    ShortJoin(m, code, pc, x.0, it, s, left, Enc(m, v));
  }

  lemma AndAlsoIs(m: Machine, e: Expr, sc: Scopes, l: nat, env: Env, v: Value) returns (left: bool)
    requires e.AndAlso? && Value1(m, e, env) == Some(v)
    ensures var x := LowerExpr(e.left, sc, l + 2);
      LowerExpr(e, sc, l).0 == x.0 + [Short(false, l, l + 1, 0, LowerExpr(e.right, sc, x.1).0)]
    ensures v.BoolV?
    ensures Value1(m, e.left, env) == Some(BoolV(left))
    ensures if left == false then v == BoolV(false) else Value1(m, e.right, env) == Some(v)
  {
    left := Value1(m, e.left, env).value.b;
  }

  lemma {:induction false} OrSim(m: Machine, e: Expr, sc: Scopes, l: nat, code: seq<Inst>, pc: nat, env: Env,
                                  s: State, v: Value)
    requires e.OrElse? && At(code, pc, Flatten(LowerExpr(e, sc, l).0)) && DistinctLabels(code)
    requires Rel(m, sc, env, s.locals) && Value1(m, e, env) == Some(v)
    ensures Pushed(m, code, pc, |Flatten(LowerExpr(e, sc, l).0)|, s, Enc(m, v)) && Fits(m, v)
    decreases e, 0
  {
    hide Rel, At, Pushed, Flatten, LowerExpr, DistinctLabels, Value1;
    var left := OrElseIs(m, e, sc, l, env, v);
    var x := LowerExpr(e.left, sc, l + 2);
    var it := Short(true, l, l + 1, 1, LowerExpr(e.right, sc, x.1).0);
    ItemsSplit(code, pc, x.0, [it]);
    ExprSim(m, e.left, sc, l + 2, code, pc, env, s, BoolV(left));
    if left != true {
      ShortPieces(code, pc + |Flatten(x.0)|, it);
      ExprSim(m, e.right, sc, x.1, code, pc + |Flatten(x.0)| + 1, env, s, v);
    }
    ShortJoin(m, code, pc, x.0, it, s, left, Enc(m, v));
  }

  lemma OrElseIs(m: Machine, e: Expr, sc: Scopes, l: nat, env: Env, v: Value) returns (left: bool)
    requires e.OrElse? && Value1(m, e, env) == Some(v)
    ensures var x := LowerExpr(e.left, sc, l + 2);
      LowerExpr(e, sc, l).0 == x.0 + [Short(true, l, l + 1, 1, LowerExpr(e.right, sc, x.1).0)]
    ensures v.BoolV?
    ensures Value1(m, e.left, env) == Some(BoolV(left))
    ensures if left == true then v == BoolV(true) else Value1(m, e.right, env) == Some(v)
  {
    left := Value1(m, e.left, env).value.b;
  }

  /** The left operand, then the test and what follows. */
  lemma ShortJoin(m: Machine, code: seq<Inst>, pc: nat, x: seq<Item>, it: Item, s: State, left: bool, v: int)
    requires it.Short? && it.k == FromBool(it.onTrue) && At(code, pc, Flatten(x + [it])) && DistinctLabels(code)
    requires Pushed(m, code, pc, |Flatten(x)|, s, FromBool(left))
    requires left == it.onTrue ==> v == it.k
    requires left != it.onTrue ==> Pushed(m, code, pc + |Flatten(x)| + 1, |Flatten(it.rhs)|, s, v)
    ensures Pushed(m, code, pc, |Flatten(x + [it])|, s, v)
  {
    hide At, Reach, Flatten, DistinctLabels, With;
    ItemsSplit(code, pc, x, [it]);
    var p := pc + |Flatten(x)|;
    ShortTail(m, code, p, it, s, left, v);
    ReachTrans(m, code, Running(pc, s), Running(p, With(s, FromBool(left))), Running(p + |Flatten([it])|, With(s, v)));
  }

  /** From the test of a short circuit on. */
  lemma ShortTail(m: Machine, code: seq<Inst>, pc: nat, it: Item, s: State, left: bool, v: int)
    requires it.Short? && it.k == FromBool(it.onTrue) && At(code, pc, Flatten([it])) && DistinctLabels(code)
    requires left == it.onTrue ==> v == it.k
    requires left != it.onTrue ==> Pushed(m, code, pc + 1, |Flatten(it.rhs)|, s, v)
    ensures Reach(m, code, Running(pc, With(s, FromBool(left))),
                  Running(pc + |Flatten([it])|, With(s, v)))
  {
    hide Reach, Flatten, Run, DistinctLabels, At, With;
    var n := |Flatten(it.rhs)|;
    ShortPieces(code, pc, it);
    TestStep(m, code, pc, it, s, left);
    var c, t := Running(pc, With(s, FromBool(left))), With(s, v);
    var out := Running(pc + n + 5, t);
    if left == it.onTrue {
      ShortTaken(m, code, pc + n + 2, it, s);
      ReachTrans(m, code, c, Running(pc + n + 2, s), out);
    } else {
      ShortFell(m, code, pc + n + 1, it, t);
      ReachTrans(m, code, c, Running(pc + 1, s), Running(pc + n + 1, t));
      ReachTrans(m, code, c, Running(pc + n + 1, t), out);
    }
  }

  /** Where the pieces of a short circuit stand. */
  lemma ShortPieces(code: seq<Inst>, pc: nat, it: Item)
    requires it.Short? && At(code, pc, Flatten([it]))
    ensures var n := |Flatten(it.rhs)|;
      && |Flatten([it])| == n + 5 && pc + n + 5 <= |code|
      && code[pc] == (if it.onTrue then JmpIf(it.tgt) else JmpIfNot(it.tgt))
      && At(code, pc + 1, Flatten(it.rhs))
      && code[pc + n + 1] == Jmp(it.end) && code[pc + n + 2] == Label(it.tgt)
      && code[pc + n + 3] == ConstBool(it.k) && code[pc + n + 4] == Label(it.end)
  {
    var h := [if it.onTrue then JmpIf(it.tgt) else JmpIfNot(it.tgt)];
    var b := [Jmp(it.end), Label(it.tgt), ConstBool(it.k), Label(it.end)];
    FlatOne(it);
    assert FlatItem(it) == h + Flatten(it.rhs) + b;
    AtSplit(code, pc, h + Flatten(it.rhs), b);
    AtSplit(code, pc, h, Flatten(it.rhs));
    AtFirst(code, pc, h);
    var p := pc + 1 + |Flatten(it.rhs)|;
    var c := code[p..p + 4];
    assert code[p] == c[0] && code[p + 1] == c[1] && code[p + 2] == c[2] && code[p + 3] == c[3];
  }

  lemma FlatOne(it: Item)
    ensures Flatten([it]) == FlatItem(it)
  {
    assert [it][1..] == [];
  }

  /** Where control is after the test of a short circuit on the value of its left operand. */
  lemma TestStep(m: Machine, code: seq<Inst>, pc: nat, it: Item, s: State, left: bool)
    requires it.Short? && DistinctLabels(code) && pc + |Flatten(it.rhs)| + 5 <= |code|
    requires code[pc] == (if it.onTrue then JmpIf(it.tgt) else JmpIfNot(it.tgt))
    requires code[pc + |Flatten(it.rhs)| + 2] == Label(it.tgt)
    ensures Reach(m, code, Running(pc, With(s, FromBool(left))),
                  Running(if left == it.onTrue then pc + |Flatten(it.rhs)| + 2 else pc + 1, s))
  {
    var c := Running(pc, With(s, FromBool(left)));
    LabelPosFound(code, pc + |Flatten(it.rhs)| + 2);
    assert c.s.stack[..|s.stack|] == s.stack;
    ReachStep(m, code, c);
  }

  lemma ShortTaken(m: Machine, code: seq<Inst>, pc: nat, it: Item, s: State)
    requires it.Short? && it.k == FromBool(it.onTrue) && pc + 3 <= |code|
    requires code[pc] == Label(it.tgt) && code[pc + 1] == ConstBool(it.k) && code[pc + 2] == Label(it.end)
    ensures Reach(m, code, Running(pc, s), Running(pc + 3, With(s, it.k)))
  {
    var t := With(s, it.k);
    ReachStep(m, code, Running(pc, s));
    ReachStep(m, code, Running(pc + 1, s));
    ReachStep(m, code, Running(pc + 2, t));
    ReachTrans(m, code, Running(pc, s), Running(pc + 1, s), Running(pc + 2, t));
    ReachTrans(m, code, Running(pc, s), Running(pc + 2, t), Running(pc + 3, t));
  }

  lemma ShortFell(m: Machine, code: seq<Inst>, pc: nat, it: Item, s: State)
    requires it.Short? && DistinctLabels(code) && pc + 4 <= |code|
    requires code[pc] == Jmp(it.end) && code[pc + 3] == Label(it.end)
    ensures Reach(m, code, Running(pc, s), Running(pc + 4, s))
  {
    LabelPosFound(code, pc + 3);
    ReachStep(m, code, Running(pc, s));
    ReachStep(m, code, Running(pc + 3, s));
    ReachTrans(m, code, Running(pc, s), Running(pc + 3, s), Running(pc + 4, s));
  }

  lemma EncHead(m: Machine, s: State, vs: seq<Value>)
    ensures vs != [] ==> WithAll(With(s, Enc(m, vs[0])), EncAll(m, vs[1..])) == WithAll(s, EncAll(m, vs))
    ensures vs == [] ==> WithAll(s, EncAll(m, vs)) == s
  {
    if vs != [] {
      assert s.stack + [Enc(m, vs[0])] + EncAll(m, vs[1..]) == s.stack + EncAll(m, vs);
    } else {
      assert s.stack + EncAll(m, vs) == s.stack;
    }
  }

  lemma {:induction false} ExprsSim(m: Machine, es: seq<Expr>, sc: Scopes, l: nat, code: seq<Inst>, pc: nat, env: Env,
                                    s: State, vs: seq<Value>)
    requires At(code, pc, Flatten(LowerExprs(es, sc, l).0)) && DistinctLabels(code)
    requires Rel(m, sc, env, s.locals) && Values(m, es, env) == Some(vs)
    ensures Reach(m, code, Running(pc, s),
                  Running(pc + |Flatten(LowerExprs(es, sc, l).0)|, WithAll(s, EncAll(m, vs))))
    decreases es
  {
    hide Rel, At, Reach, LowerExpr, Run, DistinctLabels, Enc, EncAll, FlatItem, With, WithAll, Value1;
    EncHead(m, s, vs);
    if es == [] {
      ReachSelf(m, code, Running(pc, s));
    } else {
      var x := LowerExpr(es[0], sc, l);
      var y := LowerExprs(es[1..], sc, x.1);
      ItemsSplit(code, pc, x.0, y.0);
      ExprSim(m, es[0], sc, l, code, pc, env, s, vs[0]);
      var p1, s1 := pc + |Flatten(x.0)|, With(s, Enc(m, vs[0]));
      assert vs[1..] == Values(m, es[1..], env).value;
      ExprsSim(m, es[1..], sc, x.1, code, p1, env, s1, vs[1..]);
      ReachTrans(m, code, Running(pc, s), Running(p1, s1),
                 Running(p1 + |Flatten(y.0)|, WithAll(s, EncAll(m, vs))));
    }
  }
}
