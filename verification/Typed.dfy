/** A type checker for the fragment, and what it buys: evaluation of a well-typed function
    never gets stuck, so the preservation theorems hold of every well-typed function. */
module Typed {
  import opened Ir
  import opened Ast
  import opened Lower
  import opened LowerCorrect
  import opened LowerFuncs
  import opened Literals
  import opened Lowered
  import opened Wasm
  import Eager
  import LowerEnds
  import LowerShape
  import Native
  import NativeFuncs
  import Pending
  import PendingRuns
  import Shape
  import StackifyCorrect

  /** The type of each declared variable, innermost scope last. */
  type Types = seq<map<string, Ty>>

  predicate Has(v: Value, t: Ty) {
    v.IntV? <==> t.IntT?
  }

  function TypeIn(ts: Types, x: string): Option<Ty> {
    if ts == [] then None
    else if x in ts[|ts| - 1] then Some(ts[|ts| - 1][x])
    else TypeIn(ts[..|ts| - 1], x)
  }

  function Declared(ts: Types, x: string, t: Ty): (r: Types)
    ensures |r| == |ts|
  {
    if ts == [] then ts else ts[..|ts| - 1] + [ts[|ts| - 1][x := t]]
  }

  function BinaryType(op: BinOp, a: Ty, b: Ty): Option<Ty> {
    match op
    case Add => if a.IntT? && b.IntT? then Some(IntT) else None
    case Sub => if a.IntT? && b.IntT? then Some(IntT) else None
    case Mul => if a.IntT? && b.IntT? then Some(IntT) else None
    case Eq => if a == b then Some(BoolT) else None
    case Neq => if a == b then Some(BoolT) else None
    case _ => if a.IntT? && b.IntT? then Some(BoolT) else None
  }

  function TypeOf(m: Machine, e: Expr, ts: Types): Option<Ty> {
    match e
    case Lit(n) => if n < Modulus(m) / 2 then Some(IntT) else None
    case BoolLit(_) => Some(BoolT)
    case Var(x) => TypeIn(ts, x)
    case Binary(op, l, r) =>
      if TypeOf(m, l, ts).Some? && TypeOf(m, r, ts).Some? then BinaryType(op, TypeOf(m, l, ts).value, TypeOf(m, r, ts).value) else None
    case AndAlso(l, r) => if TypeOf(m, l, ts) == Some(BoolT) == TypeOf(m, r, ts) then Some(BoolT) else None
    case OrElse(l, r) => if TypeOf(m, l, ts) == Some(BoolT) == TypeOf(m, r, ts) then Some(BoolT) else None
    case Negate(a) => if TypeOf(m, a, ts) == Some(IntT) then Some(IntT) else None
    case Invert(a) => if TypeOf(m, a, ts) == Some(BoolT) then Some(BoolT) else None
  }

  predicate Assignable(m: Machine, x: string, e: Expr, ts: Types) {
    TypeOf(m, e, ts).Some? && TypeOf(m, e, ts) == TypeIn(ts, x)
  }

  /** The types after a statement; None where it does not check. */
  function Check(m: Machine, s: Stmt, ts: Types, inLoop: bool): Option<Types>
    decreases s, 1
  {
    match s
    case Nop => Some(ts)
    case Decl(x, e) => if TypeOf(m, e, ts).Some? then Some(Declared(ts, x, TypeOf(m, e, ts).value)) else None
    case Zero(x, t) => Some(Declared(ts, x, t))
    case Assign(x, e) =>
      if x == BLANK then (if TypeOf(m, e, ts).Some? then Some(ts) else None)
      else if Assignable(m, x, e, ts) then Some(ts) else None
    case OpAssign(x, op, e) => if Assignable(m, x, Binary(op, Var(x), e), ts) then Some(ts) else None
    case Inc(x) => if Assignable(m, x, Binary(Add, Var(x), Lit(1)), ts) then Some(ts) else None
    case Eval(e) => if TypeOf(m, e, ts).Some? then Some(ts) else None
    case If(c, t, e) =>
      if TypeOf(m, c, ts) == Some(BoolT) && CheckAll(m, t, ts + [map[]], inLoop).Some? && Check(m, e, ts, inLoop) == Some(ts)
      then Some(ts) else None
    case For(init, test, post, body) =>
      if !(Plain(init) || init.Decl?) || !Plain(post) then None
      else
        (match Check(m, init, ts + [map[]], false)
         case None => None
         case Some(us) =>
           if (test.None? || TypeOf(m, test.value, us) == Some(BoolT)) && CheckAll(m, body, us + [map[]], true).Some?
              && Check(m, post, us, false) == Some(us)
           then Some(ts) else None)
    case Break => if inLoop then Some(ts) else None
    case Continue => if inLoop then Some(ts) else None
    case Return(es) => if forall i :: 0 <= i < |es| ==> TypeOf(m, es[i], ts).Some? then Some(ts) else None
    case Block(ss) => if CheckAll(m, ss, ts + [map[]], inLoop).Some? then Some(ts) else None
  }

  /** A statement that declares nothing and does not transfer control. */
  predicate Plain(s: Stmt) {
    s.Nop? || s.Assign? || s.OpAssign? || s.Inc? || s.Eval?
  }

  function CheckAll(m: Machine, ss: seq<Stmt>, ts: Types, inLoop: bool): Option<Types>
    decreases ss, 0
  {
    if ss == [] then Some(ts)
    else match Check(m, ss[0], ts, inLoop)
      case None => None
      case Some(us) => CheckAll(m, ss[1..], us, inLoop)
  }

  // ----- values have their types -----

  ghost predicate Fit(env: Env, ts: Types) {
    && |env| == |ts|
    && (forall i :: 0 <= i < |ts| ==> env[i].Keys == ts[i].Keys)
    && (forall i, x :: 0 <= i < |ts| && x in ts[i] ==> Has(env[i][x], ts[i][x]))
  }

  lemma FitInit(env: Env, ts: Types)
    requires Fit(env, ts) && ts != []
    ensures |env| == |ts| && env[|ts| - 1].Keys == ts[|ts| - 1].Keys && Fit(env[..|env| - 1], ts[..|ts| - 1])
  {
  }

  lemma FitPush(env: Env, ts: Types)
    requires Fit(env, ts)
    ensures Fit(env + [map[]], ts + [map[]])
  {
    var e, t := env + [map[]], ts + [map[]];
    forall i, x | 0 <= i < |t| && x in t[i]
      ensures Has(e[i][x], t[i][x])
    {
      assert x in ts[i];
    }
  }

  lemma {:induction false} GetTyped(env: Env, ts: Types, x: string)
    requires Fit(env, ts) && TypeIn(ts, x).Some?
    ensures Get(env, x).Some? && Has(Get(env, x).value, TypeIn(ts, x).value)
    decreases |ts|
  {
    if x !in ts[|ts| - 1] {
      GetTyped(env[..|env| - 1], ts[..|ts| - 1], x);
    }
  }

  lemma {:induction false} SetTyped(env: Env, ts: Types, x: string, v: Value)
    requires Fit(env, ts) && TypeIn(ts, x).Some? && Has(v, TypeIn(ts, x).value)
    ensures Set(env, x, v).Some? && Fit(Set(env, x, v).value, ts)
    decreases |ts|
  {
    hide Fit;
    var n := |ts| - 1;
    FitInit(env, ts);
    if x in ts[n] {
      FitTop(env, ts, x, v);
    } else {
      SetTyped(env[..n], ts[..n], x, v);
      FitMore(Set(env[..n], x, v).value, env, ts);
    }
  }

  lemma FitTop(env: Env, ts: Types, x: string, v: Value)
    requires ts != [] && Fit(env, ts) && x in ts[|ts| - 1] && Has(v, ts[|ts| - 1][x])
    ensures Fit(env[..|ts| - 1] + [env[|ts| - 1][x := v]], ts)
  {
  }

  lemma FitMore(e: Env, env: Env, ts: Types)
    requires ts != [] && Fit(env, ts) && Fit(e, ts[..|ts| - 1])
    ensures Fit(e + [env[|env| - 1]], ts)
  {
    var n := |ts| - 1;
    forall i, y | 0 <= i < |ts| && y in ts[i]
      ensures Has((e + [env[n]])[i][y], ts[i][y])
    {
      if i < n {
        assert y in ts[..n][i];
      }
    }
  }

  lemma DeclareTyped(env: Env, ts: Types, x: string, v: Value, t: Ty)
    requires Fit(env, ts) && Has(v, t)
    ensures Fit(Declare(env, x, v), Declared(ts, x, t))
  {
  }

  /** A well-typed expression has a value of its type. */
  lemma {:induction false} ExprTyped(m: Machine, e: Expr, ts: Types, env: Env)
    requires TypeOf(m, e, ts).Some? && Fit(env, ts)
    ensures Value1(m, e, env).Some? && Has(Value1(m, e, env).value, TypeOf(m, e, ts).value)
    decreases e
  {
    hide Fit;
    match e
    case Var(x) => GetTyped(env, ts, x);
    case Binary(_, l, r) => ExprTyped(m, l, ts, env); ExprTyped(m, r, ts, env);
    case AndAlso(l, r) => ExprTyped(m, l, ts, env); ExprTyped(m, r, ts, env);
    case OrElse(l, r) => ExprTyped(m, l, ts, env); ExprTyped(m, r, ts, env);
    case Negate(a) => ExprTyped(m, a, ts, env);
    case Invert(a) => ExprTyped(m, a, ts, env);
    case _ =>
  }

  lemma {:induction false} ExprsTyped(m: Machine, es: seq<Expr>, ts: Types, env: Env)
    requires Fit(env, ts) && forall i :: 0 <= i < |es| ==> TypeOf(m, es[i], ts).Some?
    ensures Values(m, es, env).Some?
  {
    if es != [] {
      ExprTyped(m, es[0], ts, env);
      ExprsTyped(m, es[1..], ts, env);
    }
  }

  // ----- statements do not get stuck -----

  /** The outer scopes fit; the innermost may hold anything. */
  ghost predicate OuterFit(env: Env, ts: Types) {
    env != [] && ts != [] && Fit(env[..|env| - 1], ts[..|ts| - 1])
  }

  ghost predicate Sound(o: Outcome, ts: Types, us: Types, inLoop: bool) {
    match o
    case Normal(e) => Fit(e, us)
    case Broke(e) => inLoop && Fit(e, ts)
    case Continued(e) => inLoop && Fit(e, ts)
    case Stuck => false
    case _ => true
  }

  /** The same for a list of statements: a jump may leave with more names declared. */
  ghost predicate ListSound(o: Outcome, ts: Types, us: Types, inLoop: bool) {
    match o
    case Normal(e) => Fit(e, us)
    case Broke(e) => inLoop && OuterFit(e, ts)
    case Continued(e) => inLoop && OuterFit(e, ts)
    case Stuck => false
    case _ => true
  }

  lemma LeaveSound(o: Outcome, ts: Types, us: Types, inLoop: bool)
    requires ListSound(o, ts + [map[]], us, inLoop) && |us| == |ts| + 1 && us[..|ts|] == ts
    ensures Sound(Leave(o), ts, ts, inLoop)
  {
    assert (ts + [map[]])[..|ts|] == ts;
    if o.Normal? {
      FitInit(o.env, us);
    }
  }

  /** Declarations only add to the innermost scope. */
  ghost predicate Extends(ts: Types, us: Types) {
    |us| == |ts| && ts != [] && us[..|ts| - 1] == ts[..|ts| - 1]
  }

  lemma {:induction false} StmtSound(m: Machine, s: Stmt, ts: Types, inLoop: bool, env: Env, fuel: nat)
    requires Check(m, s, ts, inLoop).Some? && Fit(env, ts) && ts != []
    ensures Sound(Exec(m, s, env, fuel), ts, Check(m, s, ts, inLoop).value, inLoop)
    ensures Extends(ts, Check(m, s, ts, inLoop).value)
    decreases fuel, 0, s, 2
  {
    match s
    case If(c, t, e) =>
      hide Fit;
      ExprTyped(m, c, ts, env);
      BlockSound(m, t, ts, inLoop, env, fuel);
      StmtSound(m, e, ts, inLoop, env, fuel);
    case For(_, _, _, _) =>
      ForSound(m, s, ts, inLoop, env, fuel);
    case Block(ss) =>
      hide Fit;
      BlockSound(m, ss, ts, inLoop, env, fuel);
    case _ =>
      FlatSound(m, s, ts, inLoop, env, fuel);
  }

  lemma FlatSound(m: Machine, s: Stmt, ts: Types, inLoop: bool, env: Env, fuel: nat)
    requires Check(m, s, ts, inLoop).Some? && Fit(env, ts) && ts != [] && !s.If? && !s.For? && !s.Block?
    ensures Sound(Exec(m, s, env, fuel), ts, Check(m, s, ts, inLoop).value, inLoop)
    ensures Extends(ts, Check(m, s, ts, inLoop).value)
  {
    hide Fit, Value1, TypeOf, Set, Get;
    match s
    case Decl(x, e) =>
      ExprTyped(m, e, ts, env);
      DeclareTyped(env, ts, x, Value1(m, e, env).value, TypeOf(m, e, ts).value);
    case Zero(x, t) => DeclareTyped(env, ts, x, ZeroOf(t), t);
    case Assign(x, e) =>
      ExprTyped(m, e, ts, env);
      if x != BLANK {
        SetTyped(env, ts, x, Value1(m, e, env).value);
      }
    case OpAssign(x, op, e) =>
      ExprTyped(m, Binary(op, Var(x), e), ts, env);
      SetTyped(env, ts, x, Value1(m, Binary(op, Var(x), e), env).value);
    case Inc(x) =>
      ExprTyped(m, Binary(Add, Var(x), Lit(1)), ts, env);
      SetTyped(env, ts, x, Value1(m, Binary(Add, Var(x), Lit(1)), env).value);
    case Eval(e) => ExprTyped(m, e, ts, env);
    case Return(es) => ExprsTyped(m, es, ts, env);
    case _ =>
  }

  lemma {:induction false} BlockSound(m: Machine, ss: seq<Stmt>, ts: Types, inLoop: bool, env: Env, fuel: nat)
    requires CheckAll(m, ss, ts + [map[]], inLoop).Some? && Fit(env, ts)
    ensures Sound(Leave(ExecAll(m, ss, env + [map[]], fuel)), ts, ts, inLoop)
    decreases fuel, 0, ss, 1
  {
    hide Fit;
    FitPush(env, ts);
    AllSound(m, ss, ts + [map[]], inLoop, env + [map[]], fuel);
    assert (ts + [map[]])[..|ts|] == ts;
    LeaveSound(ExecAll(m, ss, env + [map[]], fuel), ts, CheckAll(m, ss, ts + [map[]], inLoop).value, inLoop);
  }

  lemma {:induction false} AllSound(m: Machine, ss: seq<Stmt>, ts: Types, inLoop: bool, env: Env, fuel: nat)
    requires CheckAll(m, ss, ts, inLoop).Some? && Fit(env, ts) && ts != []
    ensures ListSound(ExecAll(m, ss, env, fuel), ts, CheckAll(m, ss, ts, inLoop).value, inLoop)
    ensures Extends(ts, CheckAll(m, ss, ts, inLoop).value)
    decreases fuel, 0, ss, 0
  {
    hide Fit, Check;
    if ss != [] {
      StmtSound(m, ss[0], ts, inLoop, env, fuel);
      var us, o := Check(m, ss[0], ts, inLoop).value, Exec(m, ss[0], env, fuel);
      if o.Normal? {
        AllSound(m, ss[1..], us, inLoop, o.env, fuel);
      } else {
        RestChecks(m, ss[1..], us, inLoop);
        if o.Broke? || o.Continued? {
          FitInit(o.env, ts);
        }
      }
    }
  }

  lemma {:induction false} RestChecks(m: Machine, ss: seq<Stmt>, ts: Types, inLoop: bool)
    requires CheckAll(m, ss, ts, inLoop).Some? && ts != []
    ensures Extends(ts, CheckAll(m, ss, ts, inLoop).value)
    decreases ss
  {
    if ss != [] {
      CheckExtends(m, ss[0], ts, inLoop);
      RestChecks(m, ss[1..], Check(m, ss[0], ts, inLoop).value, inLoop);
    }
  }

  lemma CheckExtends(m: Machine, s: Stmt, ts: Types, inLoop: bool)
    requires Check(m, s, ts, inLoop).Some? && ts != []
    ensures Extends(ts, Check(m, s, ts, inLoop).value)
  {
  }

  /** What a checked loop consists of: us are the types after its init. */
  ghost predicate LoopChecks(m: Machine, s: Stmt, us: Types) {
    && s.For? && us != []
    && (s.test.Some? ==> TypeOf(m, s.test.value, us) == Some(BoolT))
    && CheckAll(m, s.body, us + [map[]], true).Some? && Check(m, s.post, us, false) == Some(us) && Plain(s.post)
  }

  lemma {:induction false} ForSound(m: Machine, s: Stmt, ts: Types, inLoop: bool, env: Env, fuel: nat)
    requires s.For? && Check(m, s, ts, inLoop).Some? && Fit(env, ts) && ts != []
    ensures Sound(Exec(m, s, env, fuel), ts, Check(m, s, ts, inLoop).value, inLoop)
    ensures Extends(ts, Check(m, s, ts, inLoop).value)
    decreases fuel, 0, s, 1
  {
    hide Fit, Iterate;
    var e0, t0 := env + [map[]], ts + [map[]];
    FitPush(env, ts);
    StmtSound(m, s.init, t0, false, e0, fuel);
    var us, o := Check(m, s.init, t0, false).value, Exec(m, s.init, e0, fuel);
    InitNormal(m, s.init, e0, fuel);
    assert LoopChecks(m, s, us);
    if o.Normal? {
      IterSound(m, s, us, o.env, fuel);
      var q := Iterate(m, s.test, s.post, s.body, o.env, fuel);
      assert t0[..|ts|] == ts;
      if q.Normal? {
        FitInit(q.env, us);
      }
    }
  }

  lemma InitNormal(m: Machine, s: Stmt, env: Env, fuel: nat)
    requires Plain(s) || s.Decl?
    ensures Exec(m, s, env, fuel).Normal? || Exec(m, s, env, fuel).Stuck?
  {
  }

  /** A loop ends normally, with a return, or not at all. */
  ghost predicate LoopSound(o: Outcome, us: Types) {
    (o.Normal? && Fit(o.env, us)) || o.Returned? || o.Timeout?
  }

  lemma {:induction false} IterSound(m: Machine, s: Stmt, us: Types, env: Env, fuel: nat)
    requires LoopChecks(m, s, us) && Fit(env, us)
    ensures LoopSound(Iterate(m, s.test, s.post, s.body, env, fuel), us)
    decreases fuel, 0, s, 0
  {
    hide Fit, Check, CheckAll, Exec, ExecAll;
    if fuel > 0 {
      if s.test.Some? {
        ExprTyped(m, s.test.value, us, env);
      }
      if TestValue(m, s.test, env) == Some(true) {
        BlockSound(m, s.body, us, true, env, fuel - 1);
        var o := Leave(ExecAll(m, s.body, env + [map[]], fuel - 1));
        if o.Normal? || o.Continued? {
          StmtSound(m, s.post, us, false, o.env, fuel - 1);
          InitNormal(m, s.post, o.env, fuel - 1);
          IterSound(m, s, us, Exec(m, s.post, o.env, fuel - 1).env, fuel - 1);
        }
      }
    }
  }

  // ----- functions -----

  function ParamTypes(params: seq<string>, types: seq<Ty>): map<string, Ty>
    requires |params| == |types|
  {
    if params == [] then map[]
    else
      var n := |params| - 1;
      ParamTypes(params[..n], types[..n])[params[n] := types[n]]
  }

  /** A function with these parameter types checks. */
  predicate WellTyped(m: Machine, f: Func, types: seq<Ty>)
    requires |types| == |f.params|
  {
    CheckAll(m, f.body, [ParamTypes(f.params, types)] + [map[]], false).Some?
  }

  lemma {:induction false} BindTyped(params: seq<string>, types: seq<Ty>, args: seq<Value>)
    requires |params| == |types| == |args| && forall i :: 0 <= i < |args| ==> Has(args[i], types[i])
    ensures Bind(params, args).Keys == ParamTypes(params, types).Keys
    ensures forall x :: x in ParamTypes(params, types) ==> Has(Bind(params, args)[x], ParamTypes(params, types)[x])
  {
    if params != [] {
      var n := |params| - 1;
      BindTyped(params[..n], types[..n], args[..n]);
    }
  }

  /** Evaluation of a well-typed function never gets stuck. */
  lemma WellTypedSafe(m: Machine, f: Func, types: seq<Ty>, args: seq<Value>)
    requires |types| == |f.params| == |args| && WellTyped(m, f, types) && forall i :: 0 <= i < |args| ==> Has(args[i], types[i])
    ensures Safe(m, f, args)
  {
    hide ExecAll, CheckAll;
    BindTyped(f.params, types, args);
    var env, ts := [Bind(f.params, args)], [ParamTypes(f.params, types)];
    assert Fit(env, ts);
    forall fuel: nat
      ensures !Call(m, f, args, fuel).Stuck?
    {
      BlockSound(m, f.body, ts, false, env, fuel);
      CallIs(m, f, args, fuel);
    }
  }

  // ----- literals -----

  /** A well-typed expression has only literals that are ints of the machine. */
  lemma {:induction false} ExprLits(m: Machine, e: Expr, ts: Types)
    requires TypeOf(m, e, ts).Some?
    ensures Below(e, Modulus(m) / 2)
    decreases e
  {
    match e
    case Binary(_, l, r) => ExprLits(m, l, ts); ExprLits(m, r, ts);
    case AndAlso(l, r) => ExprLits(m, l, ts); ExprLits(m, r, ts);
    case OrElse(l, r) => ExprLits(m, l, ts); ExprLits(m, r, ts);
    case Negate(a) => ExprLits(m, a, ts);
    case Invert(a) => ExprLits(m, a, ts);
    case _ =>
  }

  lemma {:induction false} StmtLits(m: Machine, s: Stmt, ts: Types, inLoop: bool)
    requires Check(m, s, ts, inLoop).Some?
    ensures StmtBelow(s, Modulus(m) / 2)
    decreases s, 1
  {
    match s
    case Decl(_, e) => ExprLits(m, e, ts);
    case Assign(_, e) => ExprLits(m, e, ts);
    case OpAssign(x, op, e) => ExprLits(m, Binary(op, Var(x), e), ts);
    case Eval(e) => ExprLits(m, e, ts);
    case If(c, t, e) =>
      ExprLits(m, c, ts);
      AllLits(m, t, ts + [map[]], inLoop);
      StmtLits(m, e, ts, inLoop);
    case For(init, test, post, body) =>
      StmtLits(m, init, ts + [map[]], false);
      var us := Check(m, init, ts + [map[]], false).value;
      if test.Some? {
        ExprLits(m, test.value, us);
      }
      StmtLits(m, post, us, false);
      AllLits(m, body, us + [map[]], true);
    case Return(es) =>
      forall i | 0 <= i < |es|
        ensures Below(es[i], Modulus(m) / 2)
      {
        ExprLits(m, es[i], ts);
      }
    case Block(ss) => AllLits(m, ss, ts + [map[]], inLoop);
    case _ =>
  }

  lemma {:induction false} AllLits(m: Machine, ss: seq<Stmt>, ts: Types, inLoop: bool)
    requires CheckAll(m, ss, ts, inLoop).Some?
    ensures AllBelow(ss, Modulus(m) / 2)
    decreases ss, 0
  {
    if ss != [] {
      StmtLits(m, ss[0], ts, inLoop);
      AllLits(m, ss[1..], Check(m, ss[0], ts, inLoop).value, inLoop);
    }
  }

  lemma WellTypedLits(m: Machine, f: Func, types: seq<Ty>)
    requires |types| == |f.params| && WellTyped(m, f, types)
    ensures LitsFit(m, f)
  {
    hide CheckAll, AllBelow;
    AllLits(m, f.body, [ParamTypes(f.params, types)] + [map[]], false);
  }

  // ----- the preservation theorems, typed -----

  /** Arguments of the parameters' types, each an int of the machine or a bool. */
  predicate ArgsHave(m: Machine, args: seq<Value>, types: seq<Ty>) {
    |args| == |types| && forall i :: 0 <= i < |args| ==> Has(args[i], types[i]) && Fits(m, args[i])
  }

  /** So on every accepted and well-typed function lowering preserves meaning, with nothing
      left to assume about how evaluation goes. */
  lemma TypedPreserves(m: Machine, f: Func, l: nat, types: seq<Ty>, args: seq<Value>, locals: seq<int>, r: seq<int>)
    requires Accepted(f) && |types| == |f.params| && WellTyped(m, f, types) && ArgsHave(m, args, types)
    requires Passed(m, args, locals) && |locals| == SlotsOf(f, l)
    ensures Evaluates(m, f, args, r) <==> Computes(m, Shape.Flatten(ItemsOf(f, l)), locals, r)
  {
    hide Evaluates, Computes, Accepted, Passed, SlotsOf, WellTyped;
    WellTypedSafe(m, f, types, args);
    LoweringPreserves(m, f, l, args, locals, r);
  }

  /** The same down to WebAssembly, with 32-bit ints. */
  lemma TypedCompiledPreserves(f: Func, l: nat, types: seq<Ty>, args: seq<Value>, w: WState, r: seq<int>)
    requires Accepted(f) && |types| == |f.params| && WellTyped(Vm32, f, types) && ArgsHave(Vm32, args, types)
    requires f.results <= MAX_RESULTS && StackifyCorrect.Called(InfoOf(f, l), EncAll(Vm32, args), w)
    ensures var fi, code := InfoOf(f, l), StackifyCorrect.FuncCode(InfoOf(f, l), ItemsOf(f, l));
      && (Evaluates(Vm32, f, args, r) <==> StackifyCorrect.WasmGives(fi.rc, Code(code, [], w), r))
      && (forall n: nat :: WRun(fi.rc, Code(code, [], w), n) != Trapped)
      && (forall n: nat {:trigger WRun(fi.rc, Code(code, [], w), n)} ::
            WRun(fi.rc, Code(code, [], w), n).Finished? ==>
              StackifyCorrect.Back(fi, w, WRun(fi.rc, Code(code, [], w), n)))
  {
    hide Evaluates, Accepted, WellTyped, Safe, LitsFit, WRun, StackifyCorrect.Called, StackifyCorrect.WasmGives,
      StackifyCorrect.FuncCode, StackifyCorrect.Back, InfoOf;
    WellTypedSafe(Vm32, f, types, args);
    WellTypedLits(Vm32, f, types);
    CompiledPreserves(f, l, args, w, r);
  }

  /** And down to native code, with 64-bit ints. */
  lemma TypedNativePreserves(w: Eager.World, f: Func, l: nat, types: seq<Ty>, args: seq<Value>, below: seq<int>,
                             n: Native.NState, r: seq<int>)
    requires Accepted(f) && |types| == |f.params| && WellTyped(Native64, f, types) && ArgsHave(Native64, args, types)
    requires n.stack == below + EncAll(Native64, args) && n.saved == [] && |n.locals| == SlotsOf(f, l)
    requires Pending.AreWords(below) && Pending.AreWords(n.locals)
    ensures Evaluates(Native64, f, args, r)
       <==> PendingRuns.LazyStops(w, NativeFuncs.NativeOps(f, l), n, Native.NDone(below + r, n.mem))
  {
    hide Evaluates, Accepted, WellTyped, Safe, LitsFit, PendingRuns.LazyStops, NativeFuncs.NativeOps, SlotsOf;
    WellTypedSafe(Native64, f, types, args);
    WellTypedLits(Native64, f, types);
    NativeFuncs.NativePreserves(w, f, l, args, below, n, r);
  }

  // ----- such functions exist -----

  /** { if i == 3 || s > 100 { continue }; s += i } */
  const STEP: seq<Stmt> := [
    Stmt.If(OrElse(Binary(Eq, Var("i"), Lit(3)), Binary(Gt, Var("s"), Lit(100))), [Continue], Nop),
    OpAssign("s", Add, Var("i"))]

  /** for i := 0; i < n; i++ { ... } */
  const LOOP: Stmt := For(Decl("i", Lit(0)), Some(Binary(Lt, Var("i"), Var("n"))), Inc("i"), STEP)

  /** func sum(n int) int { s := 0; for ...; return s } */
  const SUM: Func := Func(["n"], 1, [Decl("s", Lit(0)), LOOP, Stmt.Return([Var("s")])])

  lemma StepTyped(m: Machine, ts: Types)
    requires TypeIn(ts, "i") == Some(IntT) == TypeIn(ts, "s")
    ensures CheckAll(m, STEP, ts, true) == Some(ts)
  {
    assert [Continue][1..] == [];
    assert CheckAll(m, [Continue], ts + [map[]], true).Some?;
    assert Modulus(m) / 2 > 100;
    assert TypeOf(m, Lit(3), ts) == Some(IntT) == TypeOf(m, Lit(100), ts);
    assert TypeOf(m, Binary(Eq, Var("i"), Lit(3)), ts) == Some(BoolT);
    assert TypeOf(m, Binary(Gt, Var("s"), Lit(100)), ts) == Some(BoolT);
    assert TypeOf(m, STEP[0].cond, ts) == Some(BoolT);
    assert Check(m, Nop, ts, true) == Some(ts);
    assert Check(m, STEP[0], ts, true) == Some(ts);
    assert TypeOf(m, Binary(Add, Var("s"), Var("i")), ts) == Some(IntT);
    assert Check(m, STEP[1], ts, true) == Some(ts);
    assert STEP[1..][0] == STEP[1] && STEP[1..][1..] == [];
  }

  lemma TypePushed(ts: Types, top: map<string, Ty>, x: string)
    ensures TypeIn(ts + [top], x) == if x in top then Some(top[x]) else TypeIn(ts, x)
  {
    assert (ts + [top])[..|ts|] == ts;
  }

  lemma LoopTyped(m: Machine, ts: Types)
    requires TypeIn(ts, "n") == Some(IntT) == TypeIn(ts, "s")
    ensures Check(m, LOOP, ts, false) == Some(ts)
  {
    var top := map["i" := IntT];
    var us := ts + [top];
    assert Declared(ts + [map[]], "i", IntT) == us;
    TypePushed(ts, top, "i");
    TypePushed(ts, top, "n");
    TypePushed(ts, top, "s");
    TypePushed(us, map[], "i");
    TypePushed(us, map[], "s");
    StepTyped(m, us + [map[]]);
    HeadTyped(m, ts, us);
    hide CheckAll, TypeOf, TypeIn, Declared;
  }

  lemma HeadTyped(m: Machine, ts: Types, us: Types)
    requires us == Declared(ts + [map[]], "i", IntT) && TypeIn(us, "i") == Some(IntT) == TypeIn(us, "n")
    ensures Check(m, LOOP.init, ts + [map[]], false) == Some(us)
    ensures TypeOf(m, LOOP.test.value, us) == Some(BoolT) && Check(m, LOOP.post, us, false) == Some(us)
  {
    assert TypeOf(m, Lit(0), ts + [map[]]) == Some(IntT) == TypeOf(m, Lit(1), us);
    assert TypeOf(m, Binary(Add, Var("i"), Lit(1)), us) == Some(IntT);
  }

  lemma SumTyped(m: Machine)
    ensures WellTyped(m, SUM, [IntT])
  {
    var p := ParamTypes(["n"], [IntT]);
    var t0, t1 := [p] + [map[]], [p] + [map["s" := IntT]];
    assert ["n"][..0] == [] && p["n"] == IntT;
    hide ParamTypes, TypeIn, Declared, TypeOf, CheckAll;
    TypePushed([], p, "n");
    assert [] + [p] == [p];
    TypePushed([p], map["s" := IntT], "n");
    TypePushed([p], map["s" := IntT], "s");
    EndsTyped(m, [p], "s");
    LoopTyped(m, t1);
    ThreeTyped(m, SUM.body[0], SUM.body[1], SUM.body[2], t0, t1);
  }

  /** A declaration of x as 0, and a return of it. */
  lemma EndsTyped(m: Machine, ts: Types, x: string)
    ensures Check(m, Decl(x, Lit(0)), ts + [map[]], false) == Some(ts + [map[x := IntT]])
    ensures Check(m, Stmt.Return([Var(x)]), ts + [map[x := IntT]], false).Some?
  {
    assert TypeOf(m, Lit(0), ts + [map[]]) == Some(IntT);
    assert Declared(ts + [map[]], x, IntT) == ts + [map[x := IntT]];
    TypePushed(ts, map[x := IntT], x);
  }

  lemma ThreeTyped(m: Machine, a: Stmt, b: Stmt, c: Stmt, t0: Types, t1: Types)
    requires Check(m, a, t0, false) == Some(t1) && Check(m, b, t1, false) == Some(t1) && Check(m, c, t1, false).Some?
    ensures CheckAll(m, [a, b, c], t0, false).Some?
  {
    hide Check;
    assert [a, b, c][1..] == [b, c] && [b, c][1..] == [c] && [c][1..] == [];
    assert CheckAll(m, [c], t1, false).Some?;
    assert CheckAll(m, [b, c], t1, false).Some?;
  }

  lemma SumInFragment()
    ensures AllInFragment(SUM.body)
  {
    assert SUM.body[1..] == [LOOP, SUM.body[2]] && [LOOP, SUM.body[2]][1..] == [SUM.body[2]] && [SUM.body[2]][1..] == [];
    assert STEP[1..] == [STEP[1]] && [STEP[1]][1..] == [] && STEP[0].thn[1..] == [];
    assert AllInFragment(STEP[0].thn) && InFragment(STEP[0]);
    assert AllInFragment([STEP[1]]) && AllInFragment(STEP);
    assert InFragment(LOOP);
    assert AllInFragment([SUM.body[2]]);
    assert AllInFragment([LOOP, SUM.body[2]]);
  }

  lemma Named(names: seq<set<string>>, i: nat, x: string)
    requires i < |names| && x in names[i]
    ensures LowerShape.InScope(names, x)
  {
  }

  lemma StepScoped(names: seq<set<string>>)
    requires LowerShape.InScope(names, "i") && LowerShape.InScope(names, "s")
    ensures LowerShape.AllScoped(STEP, names, 1)
  {
    hide LowerShape.InScope;
    assert STEP[1..] == [STEP[1]] && [STEP[1]][1..] == [] && STEP[0].thn[1..] == [];
    assert LowerShape.ExprScoped(STEP[0].cond.left, names) && LowerShape.ExprScoped(STEP[0].cond.right, names);
    assert LowerShape.ExprScoped(STEP[0].cond, names);
    assert LowerShape.AllScoped(STEP[0].thn, names + [{}], 1);
    assert LowerShape.Scoped(STEP[0], names, 1) && LowerShape.Scoped(STEP[1], names, 1);
    assert LowerShape.AllScoped([STEP[1]], names, 1);
  }

  lemma DeclNames(names: seq<set<string>>)
    ensures LowerShape.NamesAfter(LOOP.init, names + [{}]) == names + [{"i"}]
  {
    var all, none: set<string> := names + [{}], {};
    assert all[|names|] == none && none + {"i"} == {"i"};
    assert all[..|names|] == names;
  }

  lemma ScopeMore(names: seq<set<string>>, top: set<string>, x: string)
    requires LowerShape.InScope(names, x) || x in top
    ensures LowerShape.InScope(names + [top], x)
  {
    var all := names + [top];
    if x in top {
      assert x in all[|names|];
    } else {
      var i :| 0 <= i < |names| && x in names[i];
      assert x in all[i];
    }
  }

  lemma LoopScoped(names: seq<set<string>>)
    requires LowerShape.InScope(names, "n") && LowerShape.InScope(names, "s")
    ensures LowerShape.Scoped(LOOP, names, 1)
  {
    hide LowerShape.InScope, LowerShape.AllScoped, LowerShape.NamesAfter;
    var inner := names + [{"i"}];
    DeclNames(names);
    ScopeMore(names, {"i"}, "i");
    ScopeMore(names, {"i"}, "n");
    ScopeMore(names, {"i"}, "s");
    ScopeMore(inner, {}, "i");
    ScopeMore(inner, {}, "s");
    StepScoped(inner + [{}]);
    assert LowerShape.ExprScoped(LOOP.test.value, inner);
    assert LowerShape.Scoped(LOOP.init, names + [{}], 1) && LowerShape.Scoped(LOOP.post, inner, 1);
  }

  lemma SumScoped(n0: seq<set<string>>)
    requires |n0| == 2 && n0[0] == {"n"} && n0[1] == {}
    ensures LowerShape.AllScoped(SUM.body, n0, 1)
  {
    var n1: seq<set<string>> := [{"n"}, {"s"}];
    assert n0[1] + {"s"} == {"s"};
    assert n0[..1] + [n0[1] + {"s"}] == n1;
    assert LowerShape.NamesAfter(SUM.body[0], n0) == n1;
    Named(n1, 0, "n");
    Named(n1, 1, "s");
    LoopScoped(n1);
    hide LowerShape.InScope;
    assert SUM.body[1..] == [LOOP, SUM.body[2]] && [LOOP, SUM.body[2]][1..] == [SUM.body[2]] && [SUM.body[2]][1..] == [];
    assert LowerShape.Scoped(SUM.body[0], n0, 1) && LowerShape.Scoped(SUM.body[2], n1, 1);
    assert LowerShape.AllScoped([SUM.body[2]], n1, 1);
    assert LowerShape.AllScoped([LOOP, SUM.body[2]], n1, 1);
  }

  lemma SumEnds()
    ensures LowerEnds.ListTerminating(SUM.body)
  {
    assert SUM.body[1..][1..] == [SUM.body[2]];
    assert LowerEnds.ListTerminating([SUM.body[2]]);
    assert LowerEnds.ListTerminating(SUM.body[1..]);
  }

  /** An accepted function with a loop, a continue and a short circuit that is well typed for
      every machine: the theorems above are not about nothing. */
  lemma SumAccepted()
    ensures Accepted(SUM) && forall m: Machine :: WellTyped(m, SUM, [IntT])
  {
    hide WellTyped, AllInFragment, LowerShape.AllScoped, LowerEnds.ListTerminating;
    SumInFragment();
    SumEnds();
    assert (set x | x in SUM.params) == {"n"};
    SumScoped([set x | x in SUM.params] + [{}]);
    forall m: Machine
      ensures WellTyped(m, SUM, [IntT])
    {
      SumTyped(m);
    }
  }
}
