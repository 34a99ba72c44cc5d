/** The integer and boolean fragment of the source language, and what its programs mean.

    The evaluator knows nothing of stacks, slots or labels: a value is a Go int or a bool,
    a variable lives in the innermost scope that declares it. A machine only fixes how wide
    an int is. `fuel` bounds how many loop iterations may follow or enclose each other. */
module Ast {
  import opened Ir

  datatype Expr =
    | Lit(n: nat)
    | BoolLit(b: bool)
    | Var(x: string)
    | Binary(op: BinOp, left: Expr, right: Expr)
    | AndAlso(left: Expr, right: Expr)
    | OrElse(left: Expr, right: Expr)
    | Negate(e: Expr)
    | Invert(e: Expr)

  datatype Ty = IntT | BoolT

  datatype Stmt =
    | Nop
    | Decl(x: string, e: Expr)
    | Zero(x: string, t: Ty)
    | Assign(x: string, e: Expr)
    | OpAssign(x: string, op: BinOp, e: Expr)
    | Inc(x: string)
    | Eval(e: Expr)
    | If(cond: Expr, thn: seq<Stmt>, els: Stmt)
      /** Any of init, cond and post may be missing. */
    | For(init: Stmt, test: Option<Expr>, post: Stmt, body: seq<Stmt>)
    | Break
    | Continue
    | Return(es: seq<Expr>)
    | Block(ss: seq<Stmt>)

  const BLANK: string := "_"

  datatype Func = Func(params: seq<string>, results: nat, body: seq<Stmt>)

  datatype Value = IntV(i: int) | BoolV(b: bool)

  /** What a variable declared without an initialiser holds. */
  function ZeroOf(t: Ty): Value {
    if t.IntT? then IntV(0) else BoolV(false)
  }

  /** The int of the machine's width that is congruent to x. */
  function Wrap(m: Machine, x: int): int {
    Signed(m, x)
  }

  predicate Fits(m: Machine, v: Value) {
    v.IntV? ==> -(Modulus(m) / 2) <= v.i < Modulus(m) / 2
  }

  // ----- expressions -----

  /** None where a type checker would have rejected the operation. */
  function BinaryValue(m: Machine, op: BinOp, a: Value, b: Value): Option<Value> {
    if a.IntV? && b.IntV? then
      match op
      case Add => Some(IntV(Wrap(m, a.i + b.i)))
      case Sub => Some(IntV(Wrap(m, a.i - b.i)))
      case Mul => Some(IntV(Wrap(m, a.i * b.i)))
      case Eq => Some(BoolV(a.i == b.i))
      case Neq => Some(BoolV(a.i != b.i))
      case Lt => Some(BoolV(a.i < b.i))
      case Gt => Some(BoolV(a.i > b.i))
      case Leq => Some(BoolV(a.i <= b.i))
      case Geq => Some(BoolV(a.i >= b.i))
    else if a.BoolV? && b.BoolV? then
      match op
      case Eq => Some(BoolV(a.b == b.b))
      case Neq => Some(BoolV(a.b != b.b))
      case _ => None
    else None
  }

  /** Scopes, innermost last. */
  type Env = seq<map<string, Value>>

  function Get(env: Env, x: string): Option<Value> {
    if env == [] then None
    else if x in env[|env| - 1] then Some(env[|env| - 1][x])
    else Get(env[..|env| - 1], x)
  }

  function Set(env: Env, x: string, v: Value): (r: Option<Env>)
    ensures r.Some? ==> |r.value| == |env|
  {
    if env == [] then None
    else
      var top := env[|env| - 1];
      if x in top then Some(env[..|env| - 1] + [top[x := v]])
      else match Set(env[..|env| - 1], x, v)
        case Some(e) => Some(e + [top])
        case None => None
  }

  function Declare(env: Env, x: string, v: Value): Env {
    if env == [] then env else env[..|env| - 1] + [env[|env| - 1][x := v]]
  }

  /** A literal has a value where it fits an int of the machine: Go has no int constant beyond. */
  function Value1(m: Machine, e: Expr, env: Env): Option<Value> {
    match e
    case Lit(n) => if n < Modulus(m) / 2 then Some(IntV(n)) else None
    case BoolLit(b) => Some(BoolV(b))
    case Var(x) => Get(env, x)
    case Binary(op, l, r) =>
      (match Value1(m, l, env)
       case None => None
       case Some(a) =>
         match Value1(m, r, env)
         case None => None
         case Some(b) => BinaryValue(m, op, a, b))
    case AndAlso(l, r) =>
      (match Value1(m, l, env)
       case Some(BoolV(b)) => if b then BoolOnly(Value1(m, r, env)) else Some(BoolV(false))
       case _ => None)
    case OrElse(l, r) =>
      (match Value1(m, l, env)
       case Some(BoolV(b)) => if b then Some(BoolV(true)) else BoolOnly(Value1(m, r, env))
       case _ => None)
    case Negate(a) =>
      (match Value1(m, a, env)
       case Some(IntV(i)) => Some(IntV(Wrap(m, -i)))
       case _ => None)
    case Invert(a) =>
      (match Value1(m, a, env)
       case Some(BoolV(b)) => Some(BoolV(!b))
       case _ => None)
  }

  function BoolOnly(v: Option<Value>): Option<Value> {
    if v.Some? && v.value.BoolV? then v else None
  }

  function Values(m: Machine, es: seq<Expr>, env: Env): Option<seq<Value>> {
    if es == [] then Some([])
    else match Value1(m, es[0], env)
      case None => None
      case Some(v) =>
        match Values(m, es[1..], env)
        case None => None
        case Some(vs) => Some([v] + vs)
  }

  // ----- statements -----

  datatype Outcome =
    | Normal(env: Env)
    | Broke(env: Env)
    | Continued(env: Env)
    | Returned(vs: seq<Value>)
    | Stuck
    | Timeout

  function Leave(o: Outcome): Outcome {
    match o
    case Normal(e) => if e == [] then Stuck else Normal(e[..|e| - 1])
    case Broke(e) => if e == [] then Stuck else Broke(e[..|e| - 1])
    case Continued(e) => if e == [] then Stuck else Continued(e[..|e| - 1])
    case _ => o
  }

  function Update(env: Env, x: string, v: Option<Value>): Outcome {
    match v
    case None => Stuck
    case Some(w) => match Set(env, x, w) case Some(e) => Normal(e) case None => Stuck
  }

  function Exec(m: Machine, s: Stmt, env: Env, fuel: nat): Outcome
    decreases fuel, 0, s, 0
  {
    match s
    case Nop => Normal(env)
    case Decl(x, e) =>
      (match Value1(m, e, env) case Some(v) => Normal(Declare(env, x, v)) case None => Stuck)
    case Zero(x, t) => Normal(Declare(env, x, ZeroOf(t)))
    case Assign(x, e) =>
      if x == BLANK then (if Value1(m, e, env).Some? then Normal(env) else Stuck)
      else Update(env, x, Value1(m, e, env))
    case OpAssign(x, op, e) => Update(env, x, Value1(m, Binary(op, Var(x), e), env))
    case Inc(x) => Update(env, x, Value1(m, Binary(Add, Var(x), Lit(1)), env))
    case Eval(e) => if Value1(m, e, env).Some? then Normal(env) else Stuck
    case If(c, t, e) =>
      (match Value1(m, c, env)
       case Some(BoolV(b)) => if b then Leave(ExecAll(m, t, env + [map[]], fuel)) else Exec(m, e, env, fuel)
       case _ => Stuck)
    case For(init, test, post, body) =>
      (match Exec(m, init, env + [map[]], fuel)
       case Normal(e) => Leave(Iterate(m, test, post, body, e, fuel))
       case Timeout => Timeout
       case _ => Stuck)
    case Break => Broke(env)
    case Continue => Continued(env)
    case Return(es) => (match Values(m, es, env) case Some(vs) => Returned(vs) case None => Stuck)
    case Block(ss) => Leave(ExecAll(m, ss, env + [map[]], fuel))
  }

  function ExecAll(m: Machine, ss: seq<Stmt>, env: Env, fuel: nat): Outcome
    decreases fuel, 0, ss, 0
  {
    if ss == [] then Normal(env)
    else match Exec(m, ss[0], env, fuel)
      case Normal(e) => ExecAll(m, ss[1..], e, fuel)
      case o => o
  }

  /** The rest of a loop, from its test on. */
  function Iterate(m: Machine, test: Option<Expr>, post: Stmt, body: seq<Stmt>, env: Env, fuel: nat): Outcome
    decreases fuel, 0, body, 1
  {
    if fuel == 0 then Timeout
    else
      match TestValue(m, test, env)
      case None => Stuck
      case Some(b) =>
        if !b then Normal(env)
        else match Leave(ExecAll(m, body, env + [map[]], fuel - 1))
          case Broke(e) => Normal(e)
          case Normal(e) => Again(m, test, post, body, e, fuel - 1)
          case Continued(e) => Again(m, test, post, body, e, fuel - 1)
          case o => o
  }

  /** A missing test is true. */
  function TestValue(m: Machine, test: Option<Expr>, env: Env): Option<bool> {
    match test
    case None => Some(true)
    case Some(e) => match Value1(m, e, env) case Some(BoolV(b)) => Some(b) case _ => None
  }

  function Again(m: Machine, test: Option<Expr>, post: Stmt, body: seq<Stmt>, env: Env, fuel: nat): Outcome
    decreases fuel, 1
  {
    match Exec(m, post, env, fuel)
    case Normal(e) => Iterate(m, test, post, body, e, fuel)
    case Timeout => Timeout
    case _ => Stuck
  }

  // ----- whole functions -----

  function Bind(params: seq<string>, args: seq<Value>): map<string, Value>
    requires |params| == |args|
  {
    if params == [] then map[]
    else
      var n := |params| - 1;
      Bind(params[..n], args[..n])[params[n] := args[n]]
  }

  /** A call of a function; falling off the end returns nothing. */
  function Call(m: Machine, f: Func, args: seq<Value>, fuel: nat): Outcome
    requires |args| == |f.params|
  {
    match Exec(m, Block(f.body), [Bind(f.params, args)], fuel)
    case Normal(_) => Returned([])
    case Broke(_) => Stuck
    case Continued(_) => Stuck
    case o => o
  }
}
