/** Loops whose init is an expression: the compiler drops their init and their post. For which
    posts is the code right all the same? */
module Posts {
  import opened Ir
  import opened Shape
  import opened Ast
  import opened Lower
  import opened Lowered
  import opened LowerCorrect
  import opened LowerStmts
  import Departures
  import LowerShape

  /** A loop whose init is not an assignment compiles like the loop without init and post. */
  lemma ClausesDropped(s: Stmt, st: St)
    requires s.For? && !IsAssignment(s.init)
    ensures LowerStmt(s, st) == LowerStmt(For(Nop, s.test, Nop, s.body), st)
  {
    var t := For(Nop, s.test, Nop, s.body);
    var st0 := Push(st.(l := st.l + 3, brks := st.brks + [st.l + 2], conts := st.conts + [st.l + 1]));
    assert LowerLoop(s, st.l, st0) == LowerLoop(t, st.l, st0) by {
      hide LowerBlock, Test;
    }
  }

  /** `for e0; test; post { body }`: a loop whose init is an expression. */
  function ExprLoop(e0: Expr, test: Option<Expr>, post: Stmt, body: seq<Stmt>): Stmt {
    For(Eval(e0), test, post, body)
  }

  /** What it is compiled as. */
  function Bare(test: Option<Expr>, body: seq<Stmt>): Stmt {
    For(Nop, test, Nop, body)
  }

  /** A loop of this kind in its place: everything the simulation asks for, but for the init
      and the post. */
  ghost predicate Placed(m: Machine, s: Stmt, st: St, code: seq<Inst>, pc: nat, env: Env, locals: seq<int>) {
    && At(code, pc, Flatten(LowerStmt(s, st).0)) && DistinctLabels(code)
    && Slots(st.scopes, st.n) && st.scopes != [] && Rel(m, st.scopes, env, locals)
    && LowerStmt(s, st).1.n <= |locals|
    && s.For? && s.init.Eval? && AllInFragment(s.body)
  }

  /** The code does what evaluation says. */
  ghost predicate Agrees(m: Machine, s: Stmt, st: St, code: seq<Inst>, pc: nat, env: Env, locals: seq<int>, fuel: nat) {
    Ends(m, code, Start(pc, locals), Exec(m, s, env, fuel), pc + |Flatten(LowerStmt(s, st).0)|, LowerStmt(s, st).1, st,
         |locals|, fuel)
  }

  /** Loops with an expression as init and this post are compiled right: for every init, test
      and body, in every place, from every state. */
  ghost predicate PostRight(post: Stmt) {
    forall m: Machine, e0: Expr, test: Option<Expr>, body: seq<Stmt>, st: St, code: seq<Inst>, pc: nat, env: Env,
           locals: seq<int>, fuel: nat ::
      Placed(m, ExprLoop(e0, test, post, body), st, code, pc, env, locals) ==>
      Agrees(m, ExprLoop(e0, test, post, body), st, code, pc, env, locals, fuel)
  }

  lemma NopNormal(m: Machine, env: Env, fuel: nat)
    ensures Exec(m, Nop, env, fuel) == Normal(env)
  {
  }

  /** The loop without init and post, in the same place, is in the fragment. */
  lemma BareReady(m: Machine, s: Stmt, st: St, code: seq<Inst>, pc: nat, env: Env, locals: seq<int>)
    requires Placed(m, s, st, code, pc, env, locals)
    ensures LowerStmt(s, st) == LowerStmt(Bare(s.test, s.body), st)
    ensures Ready(m, Bare(s.test, s.body), st, code, pc, env, locals) && InFragment(Bare(s.test, s.body))
  {
    hide LowerStmt, Flatten, Rel, Slots, At, DistinctLabels;
    ClausesDropped(s, st);
  }

  /** `for 0; x < n; x++ {}` from 0: evaluated directly it ends with x at n. */
  lemma {:induction false} CountsUp(m: Machine, x: string, n: nat, i: nat, fuel: nat)
    requires i <= n < Modulus(m) / 2 && fuel > n - i && x != BLANK
    ensures Iterate(m, Some(Binary(Lt, Var(x), Lit(n))), Inc(x), [], [map[x := IntV(i)], map[]], fuel)
         == Normal([map[x := IntV(n)], map[]])
    decreases n - i
  {
    var env: Env := [map[x := IntV(i)], map[]];
    var test := Some(Binary(Lt, Var(x), Lit(n)));
    hide TestValue, ExecAll, Leave, Exec, Again;
    TestIs(m, x, n, i, env);
    if i < n {
      EmptyBody(m, env, fuel - 1);
      var next: Env := [map[x := IntV(i + 1)], map[]];
      StepUp(m, x, i, env);
      StepExec(m, x, env, next, fuel - 1);
      CountsUp(m, x, n, i + 1, fuel - 1);
      OnceMore(m, test, Inc(x), [], env, next, fuel - 1);
    }
  }

  lemma EmptyBody(m: Machine, env: Env, fuel: nat)
    ensures Leave(ExecAll(m, [], env + [map[]], fuel)) == Normal(env)
  {
    var inner := env + [map[]];
    assert inner[..|inner| - 1] == env;
  }

  lemma StepExec(m: Machine, x: string, env: Env, next: Env, fuel: nat)
    requires Update(env, x, Value1(m, Binary(Add, Var(x), Lit(1)), env)) == Normal(next)
    ensures Exec(m, Inc(x), env, fuel) == Normal(next)
  {
    hide Value1;
  }

  lemma OnceMore(m: Machine, test: Option<Expr>, post: Stmt, body: seq<Stmt>, env: Env, next: Env, fuel: nat)
    requires Exec(m, post, env, fuel) == Normal(next)
    ensures Again(m, test, post, body, env, fuel) == Iterate(m, test, post, body, next, fuel)
  {
    hide Exec, Iterate;
  }

  lemma GetOuter(env: Env, x: string)
    requires |env| == 2 && x in env[0] && env[1] == map[]
    ensures Get(env, x) == Some(env[0][x])
  {
    assert env[..1][0] == env[0];
  }

  lemma TestIs(m: Machine, x: string, n: nat, i: nat, env: Env)
    requires env == [map[x := IntV(i)], map[]] && n < Modulus(m) / 2
    ensures TestValue(m, Some(Binary(Lt, Var(x), Lit(n))), env) == Some(i < n)
  {
    GetOuter(env, x);
    assert Value1(m, Var(x), env) == Some(IntV(i)) && Value1(m, Lit(n), env) == Some(IntV(n));
    assert Value1(m, Binary(Lt, Var(x), Lit(n)), env) == Some(BoolV(i < n));
  }

  lemma StepUp(m: Machine, x: string, i: nat, env: Env)
    requires i + 1 < Modulus(m) / 2 && env == [map[x := IntV(i)], map[]]
    ensures Update(env, x, Value1(m, Binary(Add, Var(x), Lit(1)), env)) == Normal([map[x := IntV(i + 1)], map[]])
  {
    hide Set, Get;
    GetOuter(env, x);
    assert Wrap(m, i + 1) == i + 1;
    SetOuter(x, IntV(i), IntV(i + 1));
    assert Value1(m, Binary(Add, Var(x), Lit(1)), env) == Some(IntV(i + 1));
  }

  lemma SetOuter(x: string, u: Value, v: Value)
    ensures Set([map[x := u], map[]], x, v) == Some([map[x := v], map[]])
  {
    var env: Env := [map[x := u], map[]];
    assert env[..1] == [map[x := u]];
    assert map[x := u][x := v] == map[x := v];
    assert Set(env[..1], x, v) == Some(env[..1][..0] + [map[x := v]]);
    assert env[..1][..0] + [map[x := v]] == [map[x := v]];
    assert [map[x := v]] + [env[1]] == [map[x := v], map[]];
  }

  /** The loop it is compiled as never ends once its test holds. */
  lemma {:induction false} NeverCounts(m: Machine, x: string, n: nat, i: nat, fuel: nat)
    requires i < n < Modulus(m) / 2 && x != BLANK
    ensures Iterate(m, Some(Binary(Lt, Var(x), Lit(n))), Nop, [], [map[x := IntV(i)], map[]], fuel) == Timeout
    decreases fuel
  {
    var env: Env := [map[x := IntV(i)], map[]];
    var test := Some(Binary(Lt, Var(x), Lit(n)));
    hide TestValue, ExecAll, Leave, Exec, Again;
    TestIs(m, x, n, i, env);
    if fuel > 0 {
      EmptyBody(m, env, fuel - 1);
      NeverCounts(m, x, n, i, fuel - 1);
      NopNormal(m, env, fuel - 1);
      OnceMore(m, test, Nop, [], env, env, fuel - 1);
    }
  }

  /** Counting to n with x++ as post, wherever the loop stands: evaluated directly it ends with
      x at n, its code is still running after any number of steps. */
  lemma DroppedPostDiverges(m: Machine, x: string, n: nat, st: St, code: seq<Inst>, pc: nat, locals: seq<int>)
    requires 0 < n < Modulus(m) / 2 && x != BLANK
    requires Placed(m, ExprLoop(Lit(0), Some(Binary(Lt, Var(x), Lit(n))), Inc(x), []), st, code, pc,
             [map[x := IntV(0)]], locals)
    ensures var s := ExprLoop(Lit(0), Some(Binary(Lt, Var(x), Lit(n))), Inc(x), []);
      && Exec(m, s, [map[x := IntV(0)]], n + 1) == Normal([map[x := IntV(n)]])
      && forall k: nat :: Busy(m, code, Start(pc, locals), k)
  {
    hide Ready, LowerStmt, Flatten, Exec, Placed, Run, Rel, Slots;
    var test := Some(Binary(Lt, Var(x), Lit(n)));
    var s, t, env: Env := ExprLoop(Lit(0), test, Inc(x), []), Bare(test, []), [map[x := IntV(0)]];
    CountsFor(m, x, n);
    BareReady(m, s, st, code, pc, env, locals);
    forall k: nat
      ensures Busy(m, code, Start(pc, locals), k)
    {
      BareDiverges(m, x, n, k);
      StmtSim(m, t, st, code, pc, env, locals, k);
    }
  }

  lemma CountsFor(m: Machine, x: string, n: nat)
    requires 0 < n < Modulus(m) / 2 && x != BLANK
    ensures Exec(m, ExprLoop(Lit(0), Some(Binary(Lt, Var(x), Lit(n))), Inc(x), []), [map[x := IntV(0)]], n + 1)
         == Normal([map[x := IntV(n)]])
  {
    var env: Env := [map[x := IntV(0)]];
    assert env + [map[]] == [map[x := IntV(0)], map[]];
    CountsUp(m, x, n, 0, n + 1);
    var last: Env := [map[x := IntV(n)], map[]];
    assert last[..1] == [map[x := IntV(n)]];
    assert Exec(m, Eval(Lit(0)), env + [map[]], n + 1) == Normal(env + [map[]]);
  }

  lemma BareDiverges(m: Machine, x: string, n: nat, fuel: nat)
    requires 0 < n < Modulus(m) / 2 && x != BLANK
    ensures Exec(m, Bare(Some(Binary(Lt, Var(x), Lit(n))), []), [map[x := IntV(0)]], fuel) == Timeout
  {
    var env: Env := [map[x := IntV(0)]];
    assert env + [map[]] == [map[x := IntV(0)], map[]];
    NeverCounts(m, x, n, 0, fuel);
    NopNormal(m, env + [map[]], fuel);
  }

  // ----- posts that change nothing -----

  /** What the parser builds as a post of the fragment: nothing, an expression, an increment, an
      assignment, a declaration. The blank name is only ever assigned to. */
  predicate IsPost(s: Stmt) {
    s.Nop? || s.Eval? || s.Assign? || ((s.Inc? || s.OpAssign? || s.Decl?) && s.x != BLANK)
  }

  /** Every variable is an int of the machine or a bool. */
  ghost predicate AllFit(m: Machine, env: Env) {
    forall i, x :: 0 <= i < |env| && x in env[i] ==> Fits(m, env[i][x])
  }

  /** The same variables with the same words. */
  ghost predicate SameWords(m: Machine, a: Env, b: Env) {
    && |a| == |b|
    && (forall i :: 0 <= i < |a| ==> a[i].Keys == b[i].Keys)
    && (forall i, x :: 0 <= i < |a| && x in a[i] ==> Fits(m, b[i][x]) && Enc(m, b[i][x]) == Enc(m, a[i][x]))
  }

  /** Executing the statement never yields a changed environment. */
  ghost predicate Unchanging(s: Stmt) {
    forall m: Machine, env: Env, fuel: nat ::
      AllFit(m, env) && Exec(m, s, env, fuel).Normal? ==> SameWords(m, env, Exec(m, s, env, fuel).env)
  }

  /** Then the frame that holds the variables before holds them after. */
  lemma FrameStays(m: Machine, s: Stmt, sc: Scopes, env: Env, locals: seq<int>, fuel: nat)
    requires Unchanging(s) && Rel(m, sc, env, locals) && Exec(m, s, env, fuel).Normal?
    ensures Rel(m, sc, Exec(m, s, env, fuel).env, locals)
  {
    hide Exec, Fits, Enc;
    var e := Exec(m, s, env, fuel).env;
    forall i, x | 0 <= i < |env| && x in env[i]
      ensures Fits(m, env[i][x])
    {
      assert x in sc[i];
    }
    assert SameWords(m, env, e);
    forall i, x | 0 <= i < |sc| && x in sc[i]
      ensures sc[i][x] < |locals| && Fits(m, e[i][x]) && locals[sc[i][x]] == Enc(m, e[i][x])
    {
      assert x in env[i];
    }
  }

  lemma PostOutcome(m: Machine, post: Stmt, env: Env, fuel: nat)
    requires IsPost(post)
    ensures Exec(m, post, env, fuel).Normal? || Exec(m, post, env, fuel).Stuck?
  {
  }

  // ----- an unchanging post can be dropped -----

  /** Iterations with a post against the code without it. */
  lemma {:induction false} DropIter(m: Machine, t: Stmt, post: Stmt, l: int, st: St, code: seq<Inst>, h: nat, env: Env,
                                    locals: seq<int>, fuel: nat)
    requires t.For? && t == Bare(t.test, t.body) && Unchanging(post) && IsPost(post)
    requires Looping(t, l, st, code, h, |locals|) && Rel(m, st.scopes, env, locals)
    ensures Ends(m, code, Start(h, locals), Iterate(m, t.test, post, t.body, env, fuel),
                 h + |Flatten([Loop(l, l + 2, LowerLoop(t, l, st).0)])|, st, st, |locals|, fuel)
    decreases fuel, 0
  {
    hide Looping, LowerLoop, Flatten, Rel, Reach, ExecAll, Again, InnerOf, LabelPos, Slots, At, DistinctLabels, Ends, Busy,
      Unchanging, IsPost;
    var next := h + |Flatten([Loop(l, l + 2, LowerLoop(t, l, st).0)])|;
    var o := Iterate(m, t.test, post, t.body, env, fuel);
    var b := TestValue(m, t.test, env);
    if fuel == 0 {
      NotYet(m, code, h, locals, next, st, st);
    } else if b.None? {
      StuckEnds(m, code, Start(h, locals), next, st, st, |locals|, fuel);
    } else {
      InnerFacts(t, l, st, code, h, |locals|);
      var x := InnerOf(t, l, st, h);
      TestSim(m, t, l, st, code, h, env, locals, b.value);
      if !b.value {
        LoopExit(m, code, Start(h + 1, locals), x.j0 + 1, st, env, locals, fuel);
      } else {
        DropBody(m, t, post, l, st, code, h, env, locals, fuel - 1);
      }
      HeadStep(m, code, h, locals, o, next, st, |locals|, fuel);
    }
  }

  lemma {:induction false} DropBody(m: Machine, t: Stmt, post: Stmt, l: int, st: St, code: seq<Inst>, h: nat, env: Env,
                                    locals: seq<int>, fuel: nat)
    requires t.For? && t == Bare(t.test, t.body) && Unchanging(post) && IsPost(post)
    requires Looping(t, l, st, code, h, |locals|) && Rel(m, st.scopes, env, locals)
    requires TestValue(m, t.test, env) == Some(true)
    ensures Ends(m, code, Start(h + 1, locals), Iterate(m, t.test, post, t.body, env, fuel + 1),
                 h + |Flatten([Loop(l, l + 2, LowerLoop(t, l, st).0)])|, st, st, |locals|, fuel)
    decreases fuel, 2
  {
    hide LowerLoop, LowerBlock, LowerStmt, Flatten, Rel, Reach, ExecAll, Again, LabelPos, Slots, At, DistinctLabels, Ends,
      Busy, InFragment, AllInFragment, Test, Stands, Looping, Unchanging, IsPost;
    InnerFacts(t, l, st, code, h, |locals|);
    var x := InnerOf(t, l, st, h);
    TestSim(m, t, l, st, code, h, env, locals, true);
    hide TestValue;
    BlockSim(m, t.body, x.st1, code, x.b0, env, locals, fuel);
    var o := Leave(ExecAll(m, t.body, env + [map[]], fuel));
    var next := x.j0 + 2;
    var c := Start(x.b0, locals);
    var r := Iterate(m, t.test, post, t.body, env, fuel + 1);
    BodyOutcome(m, For(Nop, t.test, post, t.body), env, fuel, o);
    if o.Normal? || o.Continued? {
      var ls := BodyGoesOn(m, code, c, o, x.k0, x.st2, x.st1, st, |locals|, fuel, l);
      DropAgain(m, t, post, l, st, code, h, o.env, ls, fuel);
      EndsLater(m, code, c, Start(x.k0, ls), r, next, st, st, |locals|, fuel);
    } else if o.Broke? {
      BodyBreaks(m, code, c, o, x.k0, x.st2, x.st1, st, x.j0 + 1, |locals|, fuel);
    } else {
      OtherEnds(m, code, c, o, x.k0, x.st2, x.st1, next, st, |locals|, fuel);
    }
    EndsLater(m, code, Start(h + 1, locals), c, r, next, st, st, |locals|, fuel);
  }

  /** From the continue label straight back to the head: the post is executed, its code is not
      there. */
  lemma {:induction false} DropAgain(m: Machine, t: Stmt, post: Stmt, l: int, st: St, code: seq<Inst>, h: nat, env: Env,
                                     locals: seq<int>, fuel: nat)
    requires t.For? && t == Bare(t.test, t.body) && Unchanging(post) && IsPost(post)
    requires Looping(t, l, st, code, h, |locals|) && Rel(m, st.scopes, env, locals)
    ensures Ends(m, code, Start(InnerOf(t, l, st, h).k0, locals), Again(m, t.test, post, t.body, env, fuel),
                 h + |Flatten([Loop(l, l + 2, LowerLoop(t, l, st).0)])|, st, st, |locals|, fuel)
    decreases fuel, 1
  {
    hide LowerLoop, LowerBlock, LowerStmt, Rel, Reach, Exec, Iterate, LabelPos, Slots, At, DistinctLabels, Ends,
      Busy, InFragment, AllInFragment, Test, Stands, Looping, Flatten, Unchanging, IsPost;
    InnerFacts(t, l, st, code, h, |locals|);
    var x := InnerOf(t, l, st, h);
    assert x.j0 == x.k0 + 1 by { NothingLowered(x.st2); }
    var o := Exec(m, post, env, fuel);
    var c := Start(x.k0, locals);
    var r := Again(m, t.test, post, t.body, env, fuel);
    PostOutcome(m, post, env, fuel);
    if o.Normal? {
      FrameStays(m, post, st.scopes, env, locals, fuel);
      FlowsLabel(m, code, x.k0);
      FlowsJump(m, code, x.j0, h);
      FlowsTrans(m, code, x.k0, x.j0, h);
      DropIter(m, t, post, l, st, code, h, o.env, locals, fuel);
      assert Reach(m, code, c, Start(h, locals));
      EndsLater(m, code, c, Start(h, locals), r, x.j0 + 2, st, st, |locals|, fuel);
    } else {
      StuckEnds(m, code, c, x.j0 + 2, st, st, |locals|, fuel);
    }
  }

  lemma NothingLowered(st: St)
    ensures Flatten(LowerStmt(Nop, st).0) == []
  {
  }

  /** The whole loop against the code without init and post. */
  lemma DropFor(m: Machine, e0: Expr, test: Option<Expr>, post: Stmt, body: seq<Stmt>, st: St, code: seq<Inst>, pc: nat,
                env: Env, locals: seq<int>, fuel: nat)
    requires Unchanging(post) && IsPost(post)
    requires Placed(m, ExprLoop(e0, test, post, body), st, code, pc, env, locals)
    ensures Agrees(m, ExprLoop(e0, test, post, body), st, code, pc, env, locals, fuel)
  {
    hide Placed, Ready, LowerStmt, LowerLoop, Flatten, Rel, Reach, Iterate, Ends, Looping, Leave, Unchanging, IsPost, Slots,
      At, DistinctLabels, InFragment;
    var s, t := ExprLoop(e0, test, post, body), Bare(test, body);
    BareReady(m, s, st, code, pc, env, locals);
    InitReady(m, t, st, code, pc, env, locals);
    var ii, env0 := AfterInit(t, st), env + [map[]];
    var next, st' := pc + |Flatten(LowerStmt(t, st).0)|, LowerStmt(t, st).1;
    FlattenNothing();
    InitExec(m, s, t, env, fuel);
    if Exec(m, s, env, fuel).Stuck? {
      StuckEnds(m, code, Start(pc, locals), next, st', st, |locals|, fuel);
    } else {
      RelInner(m, t, st, code, pc, env, locals);
      DropIter(m, t, post, st.l, ii.1, code, pc, env0, locals, fuel);
      PostEnds(m, t, post, st, code, Start(pc, locals), next, |locals|, fuel, env0);
    }
  }

  lemma InitExec(m: Machine, s: Stmt, t: Stmt, env: Env, fuel: nat)
    requires s.For? && s.init.Eval?
    ensures Exec(m, s, env, fuel).Stuck? ||
            Exec(m, s, env, fuel) == Leave(Iterate(m, s.test, s.post, s.body, env + [map[]], fuel))
  {
    hide Iterate, Leave;
  }

  lemma RelInner(m: Machine, t: Stmt, st: St, code: seq<Inst>, pc: nat, env: Env, locals: seq<int>)
    requires t.For? && t.init.Nop? && Ready(m, t, st, code, pc, env, locals)
    ensures AfterInit(t, st).0 == [] && Rel(m, AfterInit(t, st).1.scopes, env + [map[]], locals)
  {
    hide LowerStmt, Rel;
    PushRel(m, st.scopes, env, locals);
  }

  lemma PostEnds(m: Machine, t: Stmt, post: Stmt, st: St, code: seq<Inst>, c: Conf, next: nat, size: nat, fuel: nat, e: Env)
    requires t.For? && InFragment(t)
    requires Ends(m, code, c, Iterate(m, t.test, post, t.body, e, fuel), next, AfterInit(t, st).1, AfterInit(t, st).1, size,
                  fuel)
    ensures Ends(m, code, c, Leave(Iterate(m, t.test, post, t.body, e, fuel)), next, LowerStmt(t, st).1, st, size, fuel)
  {
    hide Reach, Rel, LabelPos, Busy, LowerStmt, LowerLoop, Iterate;
    var q := Iterate(m, t.test, post, t.body, e, fuel);
    IterateKinds(m, For(Nop, t.test, post, t.body), e, fuel);
    if q.Normal? {
      InitScopes(t, st);
      StandsLeave(m, code, c, next, AfterInit(t, st).1.scopes, q.env, size);
    }
  }

  // ----- a post that changes something shows -----

  /** Evaluation depends only on the variables it mentions. */
  lemma {:induction false} SameEval(m: Machine, e: Expr, a: Env, b: Env)
    requires Value1(m, e, a).Some? && forall z :: Mentions(e, z) && Get(a, z).Some? ==> Get(b, z) == Get(a, z)
    ensures Value1(m, e, b) == Value1(m, e, a)
    decreases e
  {
    hide Get, BinaryValue;
    match e
    case Var(x) => assert Mentions(e, x);
    case Binary(_, l, r) => SameEval(m, l, a, b); SameEval(m, r, a, b);
    case AndAlso(l, r) =>
      SameEval(m, l, a, b);
      if Value1(m, l, a).value.b { SameEval(m, r, a, b); }
    case OrElse(l, r) =>
      SameEval(m, l, a, b);
      if !Value1(m, l, a).value.b { SameEval(m, r, a, b); }
    case Negate(c) => SameEval(m, c, a, b);
    case Invert(c) => SameEval(m, c, a, b);
    case _ =>
  }

  lemma GetPush(a: Env, s: map<string, Value>, x: string)
    ensures Get(a + [s], x) == if x in s then Some(s[x]) else Get(a, x)
  {
    assert (a + [s])[..|a|] == a;
  }

  lemma SetPush(a: Env, s: map<string, Value>, x: string, v: Value)
    ensures Set(a + [s], x, v) ==
      if x in s then Some(a + [s[x := v]])
      else if Set(a, x, v).Some? then Some(Set(a, x, v).value + [s])
      else None
  {
    assert (a + [s])[..|a|] == a;
  }

  /** A scope outside does not hide a variable. */
  lemma {:induction false} GetOutside(s: map<string, Value>, a: Env, x: string)
    ensures Get([s] + a, x) == if Get(a, x).Some? then Get(a, x) else if x in s then Some(s[x]) else None
    decreases |a|
  {
    var n := |a| - 1;
    if a == [] {
      assert [s] + a == [s] && [s][..0] == [];
    } else {
      assert ([s] + a)[..n + 1] == [s] + a[..n];
      if x !in a[n] {
        GetOutside(s, a[..n], x);
      }
    }
  }

  lemma {:induction false} SetSome(a: Env, x: string, v: Value)
    requires Get(a, x).Some?
    ensures Set(a, x, v).Some? && Get(Set(a, x, v).value, x) == Some(v)
    decreases |a|
  {
    var n := |a| - 1;
    if x in a[n] {
      GetPush(a[..n], a[n][x := v], x);
    } else {
      SetSome(a[..n], x, v);
      GetPush(Set(a[..n], x, v).value, a[n], x);
    }
  }

  lemma {:induction false} GetFits(m: Machine, a: Env, x: string)
    requires AllFit(m, a) && Get(a, x).Some?
    ensures Fits(m, Get(a, x).value)
    decreases |a|
  {
    if x !in a[|a| - 1] {
      GetFits(m, a[..|a| - 1], x);
    }
  }

  /** Storing the same word is no change. */
  lemma {:induction false} SetSame(m: Machine, a: Env, x: string, v: Value)
    requires AllFit(m, a) && Get(a, x).Some? && Fits(m, v) && Enc(m, v) == Enc(m, Get(a, x).value)
    ensures Set(a, x, v).Some? && SameWords(m, a, Set(a, x, v).value)
    decreases |a|
  {
    hide Fits, Enc;
    var n := |a| - 1;
    if x !in a[n] {
      SetSame(m, a[..n], x, v);
      var b := Set(a[..n], x, v).value + [a[n]];
      forall i, y | 0 <= i < |a| && y in a[i]
        ensures Fits(m, b[i][y]) && Enc(m, b[i][y]) == Enc(m, a[i][y])
      {
        if i < n {
          assert a[i] == a[..n][i];
        }
      }
      forall i | 0 <= i < |a|
        ensures a[i].Keys == b[i].Keys
      {
        if i < n {
          assert a[i] == a[..n][i];
        }
      }
    }
  }

  /** A name that neither the expression nor the statement knows. */
  lemma Fresh(e: Expr, x: string) returns (y: string)
    ensures !Mentions(e, y) && y != x && y != BLANK
  {
    var n := if Longest(e) > |x| then Longest(e) else |x|;
    y := seq(n + 2, i => 'y');
    Longer(e, y);
  }

  function Longest(e: Expr): nat {
    match e
    case Var(x) => |x|
    case Binary(_, a, b) => if Longest(a) > Longest(b) then Longest(a) else Longest(b)
    case AndAlso(a, b) => if Longest(a) > Longest(b) then Longest(a) else Longest(b)
    case OrElse(a, b) => if Longest(a) > Longest(b) then Longest(a) else Longest(b)
    case Negate(a) => Longest(a)
    case Invert(a) => Longest(a)
    case _ => 0
  }

  lemma {:induction false} Longer(e: Expr, y: string)
    requires |y| > Longest(e)
    ensures !Mentions(e, y)
    decreases e
  {
    match e
    case Binary(_, a, b) => Longer(a, y); Longer(b, y);
    case AndAlso(a, b) => Longer(a, y); Longer(b, y);
    case OrElse(a, b) => Longer(a, y); Longer(b, y);
    case Negate(a) => Longer(a, y);
    case Invert(a) => Longer(a, y);
    case _ =>
  }

  // ----- the loop that shows it -----

  /** In the first iteration set y; in the second do fin. */
  function Twice(y: string, fin: seq<Stmt>): seq<Stmt> {
    [Stmt.If(Binary(Eq, Var(y), Lit(1)), fin, Nop), Assign(y, Lit(1))]
  }

  /** The flag in a scope of its own. */
  function Flag(y: string, n: nat): map<string, Value> {
    map[y := IntV(n)]
  }

  lemma FlagTest(m: Machine, e: Env, y: string, n: nat)
    requires Get(e, y) == Some(IntV(n))
    ensures Value1(m, Binary(Eq, Var(y), Lit(1)), e) == Some(BoolV(n == 1))
  {
    assert 1 < Modulus(m) / 2;
  }

  lemma RoundOne(m: Machine, o: Env, y: string, fin: seq<Stmt>, fuel: nat)
    requires y != BLANK
    ensures Leave(ExecAll(m, Twice(y, fin), o + [Flag(y, 0)] + [map[]] + [map[]], fuel)) == Normal(o + [Flag(y, 1)] + [map[]])
  {
    hide Get, Set, Value1;
    var e, d := o + [Flag(y, 0)] + [map[]] + [map[]], o + [Flag(y, 1)] + [map[]];
    var ss := Twice(y, fin);
    GetPush(o + [Flag(y, 0)] + [map[]], map[], y);
    GetPush(o + [Flag(y, 0)], map[], y);
    GetPush(o, Flag(y, 0), y);
    FlagTest(m, e, y, 0);
    assert Exec(m, ss[0], e, fuel) == Normal(e);
    SetPush(o + [Flag(y, 0)] + [map[]], map[], y, IntV(1));
    SetPush(o + [Flag(y, 0)], map[], y, IntV(1));
    SetPush(o, Flag(y, 0), y, IntV(1));
    assert Flag(y, 0)[y := IntV(1)] == Flag(y, 1);
    LitIs(m, 1, e);
    assert Exec(m, ss[1], e, fuel) == Normal(d + [map[]]);
    TwoStmts(m, ss, e, e, d + [map[]], fuel);
    assert (d + [map[]])[..|d|] == d;
  }

  lemma LitIs(m: Machine, n: nat, e: Env)
    requires n < Modulus(m) / 2
    ensures Value1(m, Lit(n), e) == Some(IntV(n))
  {
  }

  lemma TwoStmts(m: Machine, ss: seq<Stmt>, e: Env, d: Env, c: Env, fuel: nat)
    requires |ss| == 2 && Exec(m, ss[0], e, fuel) == Normal(d) && Exec(m, ss[1], d, fuel) == Normal(c)
    ensures ExecAll(m, ss, e, fuel) == Normal(c)
  {
    assert ss[1..] == [ss[1]] && [ss[1]][1..] == [];
    hide Exec;
    assert ExecAll(m, [], c, fuel) == Normal(c);
    assert ExecAll(m, ss[1..], d, fuel) == Normal(c);
  }

  lemma RoundTwo(m: Machine, e: Env, y: string, fin: seq<Stmt>, fuel: nat)
    requires Get(e, y) == Some(IntV(1))
    ensures var o := Leave(ExecAll(m, fin, e + [map[]] + [map[]], fuel));
      !o.Normal? ==> Leave(ExecAll(m, Twice(y, fin), e + [map[]], fuel)) == Leave(o)
  {
    hide Get, Set, Value1;
    GetPush(e, map[], y);
    FlagTest(m, e + [map[]], y, 1);
    var ss := Twice(y, fin);
    assert Exec(m, ss[0], e + [map[]], fuel) == Leave(ExecAll(m, fin, e + [map[]] + [map[]], fuel)) by {
      hide ExecAll, Leave;
    }
    hide Exec;
  }

  /** The loop, two iterations long: e is the environment after the post. */
  lemma TwoRounds(m: Machine, post: Stmt, o: Env, y: string, fin: seq<Stmt>, e: Env)
    requires y != BLANK && Exec(m, post, o + [Flag(y, 1)] + [map[]], 1) == Normal(e) && Get(e, y) == Some(IntV(1))
    ensures var r := Leave(Leave(ExecAll(m, fin, e + [map[]] + [map[]], 0)));
      && (r.Returned? ==> Iterate(m, None, post, Twice(y, fin), o + [Flag(y, 0)] + [map[]], 2) == r)
      && (r.Broke? ==> Iterate(m, None, post, Twice(y, fin), o + [Flag(y, 0)] + [map[]], 2) == Normal(r.env))
  {
    hide ExecAll, Exec, Leave, Get;
    var d := o + [Flag(y, 1)] + [map[]];
    RoundOne(m, o, y, fin, 1);
    RoundTwo(m, e, y, fin, 0);
    LeaveKind(ExecAll(m, fin, e + [map[]] + [map[]], 0));
    assert Again(m, None, post, Twice(y, fin), d, 1) == Iterate(m, None, post, Twice(y, fin), e, 1);
  }

  lemma LeaveKind(o: Outcome)
    ensures Leave(Leave(o)).Returned? || Leave(Leave(o)).Broke? ==> !Leave(o).Normal?
  {
  }

  /** The loop itself; its post may also be Nop. */
  function Shower(y: string, fin: seq<Stmt>, post: Stmt): Stmt {
    ExprLoop(Lit(0), None, post, Twice(y, fin))
  }

  lemma ShowerRuns(m: Machine, y: string, fin: seq<Stmt>, post: Stmt, e: Env)
    ensures Exec(m, Shower(y, fin, post), e, 2) == Leave(Iterate(m, None, post, Twice(y, fin), e + [map[]], 2))
    ensures Exec(m, Bare(None, Twice(y, fin)), e, 2) == Leave(Iterate(m, None, Nop, Twice(y, fin), e + [map[]], 2))
  {
    hide Iterate, Leave;
    assert Exec(m, Eval(Lit(0)), e + [map[]], 2) == Normal(e + [map[]]);
    NopNormal(m, e + [map[]], 2);
  }

  // ----- a place for the loop -----

  /** Any scopes of fitting values fit in a frame. */
  lemma {:induction false} Layout(m: Machine, env: Env) returns (sc: Scopes, locals: seq<int>)
    requires AllFit(m, env)
    ensures Rel(m, sc, env, locals) && Slots(sc, |locals|)
    decreases |env|
  {
    if env == [] {
      sc, locals := [], [];
    } else {
      var n := |env| - 1;
      sc, locals := Layout(m, env[..n]);
      PushRel(m, sc, env[..n], locals);
      PushSlots(sc, |locals|);
      var none: map<string, Value> := map[];
      assert forall x :: x in env[n] ==> Fits(m, env[n][x]);
      sc, locals := LayScope(m, sc + [map[]], env[..n], none, locals, env[n]);
      assert none + env[n] == env[n] && env[..n] + [env[n]] == env;
    }
  }

  /** The names of one more scope, one after the other. */
  lemma {:induction false} LayScope(m: Machine, sc: Scopes, outer: Env, top: map<string, Value>, locals: seq<int>,
                                    names: map<string, Value>)
    returns (sc': Scopes, locals': seq<int>)
    requires Rel(m, sc, outer + [top], locals) && Slots(sc, |locals|) && forall x :: x in names ==> Fits(m, names[x])
    ensures Rel(m, sc', outer + [top + names], locals') && Slots(sc', |locals'|)
    decreases |names|
  {
    hide Rel, Slots, AddName, Declare, Enc, Fits;
    if names == map[] {
      sc', locals' := sc, locals;
      assert top + names == top;
    } else {
      var x :| x in names;
      NamesRest(m, top, names, x);
      var ls := LayName(m, sc, outer, top, locals, x, names[x]);
      sc', locals' := LayScope(m, AddName(sc, x, |locals|), outer, top[x := names[x]], ls, names - {x});
    }
  }

  lemma NamesRest(m: Machine, top: map<string, Value>, names: map<string, Value>, x: string)
    requires x in names && forall y :: y in names ==> Fits(m, names[y])
    ensures |names - {x}| < |names| && top[x := names[x]] + (names - {x}) == top + names
    ensures forall y :: y in names - {x} ==> Fits(m, (names - {x})[y])
  {
    hide Fits;
    assert names.Keys == (names - {x}).Keys + {x};
    MovedOver(top, names, x);
  }

  lemma MovedOver(top: map<string, Value>, names: map<string, Value>, x: string)
    requires x in names
    ensures top[x := names[x]] + (names - {x}) == top + names
  {
    var rest := names - {x};
    var a, b := top[x := names[x]] + rest, top + names;
    assert names.Keys == rest.Keys + {x};
    assert a.Keys == b.Keys;
    forall y | y in a
      ensures a[y] == b[y]
    {
      assert y in rest <==> y in names && y != x;
    }
  }

  lemma LayName(m: Machine, sc: Scopes, outer: Env, top: map<string, Value>, locals: seq<int>, x: string, v: Value)
    returns (ls: seq<int>)
    requires Rel(m, sc, outer + [top], locals) && Slots(sc, |locals|) && Fits(m, v)
    ensures |ls| == |locals| + 1
    ensures Rel(m, AddName(sc, x, |locals|), outer + [top[x := v]], ls) && Slots(AddName(sc, x, |locals|), |ls|)
  {
    hide Rel, Slots, AddName, Declare, Enc, Fits;
    var n := |locals|;
    RelMore(m, sc, outer + [top], locals, [0]);
    RelLength(m, sc, outer + [top], locals);
    DeclareRel(m, sc, n, outer + [top], locals + [0], x, v);
    SlotsAdd(sc, n, x);
    DeclareTop(outer, top, x, v);
    ls := (locals + [0])[n := Enc(m, v)];
  }

  lemma DeclareTop(outer: Env, top: map<string, Value>, x: string, v: Value)
    ensures Declare(outer + [top], x, v) == outer + [top[x := v]]
  {
    assert (outer + [top])[..|outer|] == outer;
  }

  /** More slots do not matter. */
  lemma RelMore(m: Machine, sc: Scopes, env: Env, locals: seq<int>, more: seq<int>)
    requires Rel(m, sc, env, locals)
    ensures Rel(m, sc, env, locals + more)
  {
  }

  lemma {:induction false} NameSeen(sc: Scopes, env: Env, x: string)
    requires |sc| == |env| && (forall i :: 0 <= i < |sc| ==> sc[i].Keys == env[i].Keys) && Get(env, x).Some?
    ensures LowerShape.InScope(LowerShape.NamesOf(sc), x)
    decreases |env|
  {
    var n := |env| - 1;
    if x in env[n] {
      assert x in LowerShape.NamesOf(sc)[n];
    } else {
      NameSeen(sc[..n], env[..n], x);
      var i :| 0 <= i < n && x in LowerShape.NamesOf(sc[..n])[i];
      assert x in LowerShape.NamesOf(sc)[i];
    }
  }

  /** Return x, or set it and leave the loop. */
  predicate Tells(fin: seq<Stmt>, x: string) {
    || fin == [Stmt.Return([Var(x)])]
    || (|fin| == 2 && fin[0].Assign? && fin[0].x == x && fin[0].e.Lit? && fin[1].Break?)
  }

  lemma TwiceScoped(y: string, fin: seq<Stmt>, x: string, names: LowerShape.Names)
    requires Tells(fin, x) && LowerShape.InScope(names, x) && LowerShape.InScope(names, y)
    ensures LowerShape.AllScoped(Twice(y, fin), names + [{}] + [{}], 1) && AllInFragment(Twice(y, fin))
  {
    hide LowerShape.InScope, Tells;
    var ns := names + [{}] + [{}];
    Within(names, {}, x);
    Within(names + [{}], {}, x);
    Within(ns, {}, x);
    Within(names, {}, y);
    Within(names + [{}], {}, y);
    TellsScoped(fin, x, ns + [{}]);
    TwiceParts(y, fin, ns);
    TwoScoped(Twice(y, fin), ns);
  }

  lemma TwiceParts(y: string, fin: seq<Stmt>, names: LowerShape.Names)
    requires LowerShape.InScope(names, y) && LowerShape.AllScoped(fin, names + [{}], 1) && AllInFragment(fin)
    ensures var ss := Twice(y, fin);
      && LowerShape.Scoped(ss[0], names, 1) && LowerShape.Scoped(ss[1], names, 1)
      && InFragment(ss[0]) && InFragment(ss[1])
  {
    hide LowerShape.InScope, LowerShape.AllScoped, AllInFragment;
    var c := Binary(Eq, Var(y), Lit(1));
    assert LowerShape.ExprScoped(Var(y), names) && LowerShape.ExprScoped(Lit(1), names);
    assert LowerShape.ExprScoped(c, names);
    assert LowerShape.Scoped(Nop, names, 1) && InFragment(Nop);
  }

  lemma TwoScoped(ss: seq<Stmt>, names: LowerShape.Names)
    requires |ss| == 2 && LowerShape.Scoped(ss[0], names, 1) && LowerShape.Scoped(ss[1], names, 1)
    requires !ss[0].Decl? && !ss[0].Zero? && !ss[1].Decl? && !ss[1].Zero?
    ensures LowerShape.AllScoped(ss, names, 1)
    ensures AllInFragment(ss) <==> InFragment(ss[0]) && InFragment(ss[1])
  {
    hide LowerShape.Scoped, InFragment;
    assert ss[1..] == [ss[1]] && [ss[1]][1..] == [];
    assert LowerShape.AllScoped([], names, 1) && AllInFragment([]);
    assert LowerShape.AllScoped(ss[1..], names, 1);
    assert AllInFragment(ss[1..]) <==> InFragment(ss[1]);
  }

  lemma TellsScoped(fin: seq<Stmt>, x: string, names: LowerShape.Names)
    requires Tells(fin, x) && LowerShape.InScope(names, x)
    ensures LowerShape.AllScoped(fin, names, 1) && AllInFragment(fin)
  {
    hide LowerShape.InScope;
    if |fin| == 2 {
      TwoScoped(fin, names);
    } else {
      assert [Stmt.Return([Var(x)])][1..] == [];
      assert LowerShape.AllScoped([], names, 1) && AllInFragment([]);
      assert LowerShape.Scoped(fin[0], names, 1);
    }
  }

  lemma Within(names: LowerShape.Names, more: set<string>, x: string)
    requires LowerShape.InScope(names, x)
    ensures LowerShape.InScope(names + [more], x)
  {
    var i :| 0 <= i < |names| && x in names[i];
    assert x in (names + [more])[i];
  }

  /** The loop can be put anywhere the variables it names are visible. */
  lemma Placing(m: Machine, y: string, fin: seq<Stmt>, x: string, post: Stmt, env: Env)
    returns (st: St, code: seq<Inst>, locals: seq<int>)
    requires AllFit(m, env) && env != [] && Tells(fin, x) && Get(env, x).Some? && Get(env, y).Some?
    ensures code == Flatten(LowerStmt(Shower(y, fin, post), st).0)
    ensures Placed(m, Shower(y, fin, post), st, code, 0, env, locals)
  {
    hide Flatten, LowerStmt, Rel, Slots, AllInFragment, LowerShape.AllScoped, Get, LowerShape.InScope, AllFit;
    var sc, ls := Layout(m, env);
    st := St(sc, |ls|, 0, [], []);
    assert |sc| == |env| by { RelLength(m, sc, env, ls); }
    var s, t := Shower(y, fin, post), Bare(None, Twice(y, fin));
    ClausesDropped(s, st);
    code := Flatten(LowerStmt(s, st).0);
    BareHere(m, y, fin, x, st, env, ls);
    var n := LowerStmt(t, st).1.n;
    LowerShape.StmtClean(t, st, n, 1);
    assert DistinctLabels(code) by { CleanDistinct(LowerStmt(t, st).0, n, LowerShape.Range(st.l, LowerStmt(t, st).1.l)); }
    locals := ls + seq(n, i => 0);
    RelMore(m, sc, env, ls, seq(n, i => 0));
    assert code[0..0 + |code|] == code;
    assert AllInFragment(s.body) by { LoopParts(t); }
  }

  lemma RelLength(m: Machine, sc: Scopes, env: Env, ls: seq<int>)
    requires Rel(m, sc, env, ls)
    ensures |sc| == |env| && forall i :: 0 <= i < |sc| ==> sc[i].Keys == env[i].Keys
  {
  }

  lemma CleanDistinct(items: seq<Item>, n: nat, S: set<int>)
    requires LowerShape.Clean(items, n, S)
    ensures DistinctLabels(Flatten(items))
  {
  }

  lemma BareHere(m: Machine, y: string, fin: seq<Stmt>, x: string, st: St, env: Env, ls: seq<int>)
    requires Rel(m, st.scopes, env, ls) && Slots(st.scopes, st.n) && st.scopes != []
    requires Tells(fin, x) && Get(env, x).Some? && Get(env, y).Some?
    ensures var t := Bare(None, Twice(y, fin));
      LowerShape.Here(t, st, LowerStmt(t, st).1.n, 1)
  {
    hide Rel, Slots, AllInFragment, LowerShape.AllScoped, Get, LowerShape.InScope, LowerShape.NamesOf, LowerStmt, Twice, Tells;
    RelLength(m, st.scopes, env, ls);
    NameSeen(st.scopes, env, x);
    NameSeen(st.scopes, env, y);
    TwiceScoped(y, fin, x, LowerShape.NamesOf(st.scopes));
    BareScoped(Twice(y, fin), LowerShape.NamesOf(st.scopes));
  }

  lemma BareScoped(body: seq<Stmt>, names: LowerShape.Names)
    requires LowerShape.AllScoped(body, names + [{}] + [{}], 1) && AllInFragment(body)
    ensures LowerShape.Scoped(Bare(None, body), names, 1) && InFragment(Bare(None, body))
  {
    hide LowerShape.AllScoped, AllInFragment;
    assert LowerShape.Scoped(Nop, names + [{}], 1);
    assert LowerShape.NamesAfter(Nop, names + [{}]) == names + [{}];
  }

  // ----- a changed variable is told -----

  predicate Stores(post: Stmt) {
    post.Inc? || post.OpAssign? || (post.Assign? && post.x != BLANK)
  }

  /** What the post stores. */
  function Stored(post: Stmt): Expr
    requires Stores(post)
  {
    match post
    case Assign(_, e) => e
    case OpAssign(x, op, e) => Binary(op, Var(x), e)
    case Inc(x) => Binary(Add, Var(x), Lit(1))
  }

  lemma StoreIs(m: Machine, post: Stmt, env: Env, fuel: nat)
    requires Stores(post)
    ensures Exec(m, post, env, fuel) == Update(env, post.x, Value1(m, Stored(post), env))
  {
    hide Value1;
  }

  lemma {:induction false} SetGet(a: Env, x: string, v: Value)
    requires Set(a, x, v).Some?
    ensures Get(a, x).Some?
    decreases |a|
  {
    if x !in a[|a| - 1] {
      SetGet(a[..|a| - 1], x, v);
    }
  }

  /** Values computed from variables that fit do fit. */
  lemma FitsAll(m: Machine, e: Expr, env: Env)
    requires AllFit(m, env) && Value1(m, e, env).Some?
    ensures Fits(m, Value1(m, e, env).value)
  {
    hide Rel, Slots, Value1, AllFit, Fits;
    var sc, ls := Layout(m, env);
    ValueFits(m, e, sc, env, ls);
  }

  lemma FlagFits(m: Machine, env: Env, y: string)
    requires AllFit(m, env)
    ensures AllFit(m, env + [Flag(y, 0)])
  {
    var e := env + [Flag(y, 0)];
    forall i, x | 0 <= i < |e| && x in e[i]
      ensures Fits(m, e[i][x])
    {
      if i < |env| {
        assert e[i] == env[i];
      }
    }
  }

  /** The environment of the second iteration, one variable seen through its scopes. */
  lemma GetInner(o: Env, y: string, n: nat, x: string)
    requires x != y
    ensures Get(o + [Flag(y, n)], x) == Get(o + [Flag(y, n)] + [map[]], x) == Get(o, x)
    ensures Get(o + [Flag(y, n)], y) == Get(o + [Flag(y, n)] + [map[]], y) == Some(IntV(n))
  {
    hide Get;
    GetPush(o, Flag(y, n), x);
    GetPush(o + [Flag(y, n)], map[], x);
    GetPush(o, Flag(y, n), y);
    GetPush(o + [Flag(y, n)], map[], y);
  }

  /** An expression that does not know the flag, in the second iteration. */
  lemma EvalInner(m: Machine, e: Expr, o: Env, y: string, n: nat)
    requires Value1(m, e, o).Some? && !Mentions(e, y)
    ensures Value1(m, e, o + [Flag(y, n)] + [map[]]) == Value1(m, e, o)
  {
    hide Get, Value1, Mentions, Flag;
    forall z | Mentions(e, z) && Get(o, z).Some?
      ensures Get(o + [Flag(y, n)] + [map[]], z) == Get(o, z)
    {
      GetInner(o, y, n, z);
    }
    SameEval(m, e, o, o + [Flag(y, n)] + [map[]]);
  }

  /** The store, in the second iteration. */
  lemma StoreInner(m: Machine, post: Stmt, o: Env, y: string)
    requires Stores(post) && post.x != y && !Mentions(Stored(post), y)
    requires Value1(m, Stored(post), o).Some? && Set(o, post.x, Value1(m, Stored(post), o).value).Some?
    ensures var e := Set(o, post.x, Value1(m, Stored(post), o).value).value;
      Exec(m, post, o + [Flag(y, 1)] + [map[]], 1) == Normal(e + [Flag(y, 1)] + [map[]])
  {
    hide Value1, Set, Exec, Stored, Mentions;
    var v := Value1(m, Stored(post), o).value;
    StoreIs(m, post, o + [Flag(y, 1)] + [map[]], 1);
    EvalInner(m, Stored(post), o, y, 1);
    SetPush(o + [Flag(y, 1)], map[], post.x, v);
    SetPush(o, Flag(y, 1), post.x, v);
  }

  /** Returning x returns its value. */
  lemma ReturnsIt(m: Machine, x: string, e: Env, u: Value)
    requires Get(e, x) == Some(u)
    ensures Leave(Leave(ExecAll(m, [Stmt.Return([Var(x)])], e + [map[]] + [map[]], 0))) == Returned([u])
  {
    hide Get;
    var d := e + [map[]] + [map[]];
    GetPush(e, map[], x);
    GetPush(e + [map[]], map[], x);
    assert [Var(x)][1..] == [] && Values(m, [], d) == Some([]);
    assert Value1(m, Var(x), d) == Some(u) && [u] + [] == [u];
    assert Values(m, [Var(x)], d) == Some([u]);
    var ss := [Stmt.Return([Var(x)])];
    assert Exec(m, ss[0], d, 0) == Returned([u]);
  }

  /** What the loop returns when e is the environment after the post. */
  lemma ShowerReturns(m: Machine, y: string, x: string, post: Stmt, o: Env, e: Env, u: Value)
    requires y != BLANK && Exec(m, post, o + [Flag(y, 1)] + [map[]], 1) == Normal(e)
    requires Get(e, y) == Some(IntV(1)) && Get(e, x) == Some(u)
    ensures Iterate(m, None, post, Twice(y, [Stmt.Return([Var(x)])]), o + [Flag(y, 0)] + [map[]], 2) == Returned([u])
  {
    hide ExecAll, Exec, Leave, Get, Iterate, Twice, Flag;
    ReturnsIt(m, x, e, u);
    TwoRounds(m, post, o, y, [Stmt.Return([Var(x)])], e);
  }

  /** A post that changes the word of a variable is compiled wrong. */
  lemma StoreShows(m: Machine, post: Stmt, env: Env, fuel: nat)
    requires Stores(post) && AllFit(m, env) && Exec(m, post, env, fuel).Normal?
    requires !SameWords(m, env, Exec(m, post, env, fuel).env)
    ensures !PostRight(post)
  {
    hide Exec, AllFit, SameWords, PostRight, Value1, Get, Set, Enc, Fits, Stored, Mentions;
    var x, e1 := post.x, Stored(post);
    StoreIs(m, post, env, fuel);
    var v := Value1(m, e1, env).value;
    SetGet(env, x, v);
    FitsAll(m, e1, env);
    var u := Get(env, x).value;
    if Enc(m, v) == Enc(m, u) {
      SetSame(m, env, x, v);
    }
    var y := Fresh(e1, x);
    StoreInner(m, post, env, y);
    var e := Set(env, x, v).value;
    SetSome(env, x, v);
    GetInner(e, y, 1, x);
    ShowerReturns(m, y, x, post, env, e + [Flag(y, 1)] + [map[]], v);
    NopNormal(m, env + [Flag(y, 1)] + [map[]], 1);
    GetInner(env, y, 1, x);
    ShowerReturns(m, y, x, Nop, env, env + [Flag(y, 1)] + [map[]], u);
    TwoAnswers(m, y, x, post, env, u, v);
  }

  /** Evaluation returns v, the code returns u. */
  lemma TwoAnswers(m: Machine, y: string, x: string, post: Stmt, o: Env, u: Value, v: Value)
    requires AllFit(m, o) && Get(o, x).Some? && x != y && Enc(m, u) != Enc(m, v)
    requires var fin := [Stmt.Return([Var(x)])];
      && Iterate(m, None, post, Twice(y, fin), o + [Flag(y, 0)] + [map[]], 2) == Returned([v])
      && Iterate(m, None, Nop, Twice(y, fin), o + [Flag(y, 0)] + [map[]], 2) == Returned([u])
    ensures !PostRight(post)
  {
    hide Exec, AllFit, Get, Enc, Iterate, Twice, Flag, Placed, Run, Ready, LowerStmt, Flatten;
    var fin, env := [Stmt.Return([Var(x)])], o + [Flag(y, 0)];
    ShowerRuns(m, y, fin, post, env);
    FlagFits(m, o, y);
    GetInner(o, y, 0, x);
    var st, code, locals := Placing(m, y, fin, x, post, env);
    BareReady(m, Shower(y, fin, post), st, code, 0, env, locals);
    StmtSim(m, Bare(None, Twice(y, fin)), st, code, 0, env, locals, 2);
    var c := Start(0, locals);
    assert Reach(m, code, c, Done(EncAll(m, [u])));
    if PostRight(post) {
      assert Agrees(m, Shower(y, fin, post), st, code, 0, env, locals, 2);
      assert Reach(m, code, c, Done(EncAll(m, [v])));
      OneAnswer(m, code, c, [u], [v]);
    }
  }

  lemma OneAnswer(m: Machine, code: seq<Inst>, c: Conf, us: seq<Value>, vs: seq<Value>)
    requires Reach(m, code, c, Done(EncAll(m, us))) && Reach(m, code, c, Done(EncAll(m, vs))) && |us| == |vs| == 1
    ensures Enc(m, us[0]) == Enc(m, vs[0])
  {
    hide Run, Enc;
    var a: nat :| Run(m, code, c, a) == Done(EncAll(m, us));
    var b: nat :| Run(m, code, c, b) == Done(EncAll(m, vs));
    ResultUnique(m, code, c, a, b);
    assert EncAll(m, us)[0] == EncAll(m, vs)[0];
  }

  // ----- a declared variable is told -----

  /** Setting x, then leaving the loop. */
  function SetAndLeave(x: string, k: nat): seq<Stmt> {
    [Assign(x, Lit(k)), Break]
  }

  lemma LeavesSet(m: Machine, x: string, k: nat, e: Env, d: Env)
    requires x != BLANK && k <= 1 && Set(e, x, IntV(k)) == Some(d)
    ensures Leave(Leave(ExecAll(m, SetAndLeave(x, k), e + [map[]] + [map[]], 0))) == Broke(d)
  {
    hide Set;
    var c := e + [map[]] + [map[]];
    SetPush(e, map[], x, IntV(k));
    SetPush(e + [map[]], map[], x, IntV(k));
    LitIs(m, k, c);
    var ss, r := SetAndLeave(x, k), d + [map[]] + [map[]];
    assert Exec(m, ss[0], c, 0) == Normal(r);
    assert ss[1..] == [Break];
    assert ExecAll(m, [Break], r, 0) == Broke(r);
    assert r[..|d| + 1] == d + [map[]] && (d + [map[]])[..|d|] == d;
  }

  /** What the loop leaves behind when e is the environment after the post. */
  lemma ShowerSets(m: Machine, y: string, x: string, k: nat, post: Stmt, o: Env, e: Env, d: Env)
    requires y != BLANK && x != BLANK && k <= 1
    requires Exec(m, post, o + [Flag(y, 1)] + [map[]], 1) == Normal(e)
    requires Get(e, y) == Some(IntV(1)) && Set(e, x, IntV(k)) == Some(d)
    ensures Iterate(m, None, post, Twice(y, SetAndLeave(x, k)), o + [Flag(y, 0)] + [map[]], 2) == Normal(d)
  {
    hide ExecAll, Exec, Leave, Get, Set, Iterate, Twice, Flag, SetAndLeave;
    LeavesSet(m, x, k, e, d);
    TwoRounds(m, post, o, y, SetAndLeave(x, k), e);
  }

  /** Around the declaration x is visible, and not k. */
  lemma Outside(m: Machine, e: Expr, env: Env, x: string) returns (o: Env, k: nat)
    requires AllFit(m, env) && Value1(m, e, env).Some?
    ensures AllFit(m, o) && Value1(m, e, o) == Value1(m, e, env) && Get(o, x).Some?
    ensures k <= 1 && Enc(m, Get(o, x).value) != k
  {
    var zero := map[x := IntV(0)];
    if Get(env, x).Some? {
      o := env;
    } else {
      o := [zero] + env;
      forall z | Mentions(e, z) && Get(env, z).Some?
        ensures Get(o, z) == Get(env, z)
      {
        GetOutside(zero, env, z);
      }
      SameEval(m, e, env, o);
      GetOutside(zero, env, x);
      ZeroOutside(m, x, env);
    }
    k := if Enc(m, Get(o, x).value) == 0 then 1 else 0;
  }

  lemma ZeroOutside(m: Machine, x: string, env: Env)
    requires AllFit(m, env)
    ensures AllFit(m, [map[x := IntV(0)]] + env)
  {
    var o := [map[x := IntV(0)]] + env;
    forall i, y | 0 <= i < |o| && y in o[i]
      ensures Fits(m, o[i][y])
    {
      if i > 0 {
        assert o[i] == env[i - 1];
      }
    }
  }

  /** A declaration with a value is compiled wrong as a post. */
  lemma DeclShows(m: Machine, x: string, e: Expr, env: Env)
    requires x != BLANK && AllFit(m, env) && Value1(m, e, env).Some?
    ensures !PostRight(Decl(x, e))
  {
    hide Exec, AllFit, PostRight, Value1, Get, Set, Enc, Fits, Mentions, Declare, Flag;
    var o, k := Outside(m, e, env, x);
    var y := Fresh(e, x);
    var v := Value1(m, e, o).value;
    EvalInner(m, e, o, y, 1);
    var inner, outer := o + [Flag(y, 1)], o + [Flag(y, 0)];
    GetInner(o, y, 1, x);
    DeclInner(m, x, e, inner, v);
    GetPush(inner, map[x := v], y);
    SetPush(inner, map[x := v], x, IntV(k));
    assert map[x := v][x := IntV(k)] == map[x := IntV(k)];
    ShowerSets(m, y, x, k, Decl(x, e), o, inner + [map[x := v]], inner + [map[x := IntV(k)]]);
    NopNormal(m, inner + [map[]], 1);
    SetSome(inner, x, IntV(k));
    SetPush(inner, map[], x, IntV(k));
    var d := Set(inner, x, IntV(k)).value;
    ShowerSets(m, y, x, k, Nop, o, inner + [map[]], d + [map[]]);
    TwoFrames(m, y, x, k, Decl(x, e), o, inner, map[x := IntV(k)], d);
  }

  lemma DeclInner(m: Machine, x: string, e: Expr, env: Env, v: Value)
    requires Value1(m, e, env + [map[]]) == Some(v)
    ensures Exec(m, Decl(x, e), env + [map[]], 1) == Normal(env + [map[x := v]])
  {
    hide Value1;
    DeclareTop(env, map[], x, v);
  }

  /** Evaluation leaves the scopes a, the code leaves b, and they differ on x. */
  lemma TwoFrames(m: Machine, y: string, x: string, k: nat, post: Stmt, o: Env, a: Env, top: map<string, Value>, b: Env)
    requires AllFit(m, o) && Get(o, x).Some? && x != y && k <= 1
    requires Get(a, x) == Get(o, x) && Get(b, x) == Some(IntV(k)) && Enc(m, Get(o, x).value) != k
    requires var body := Twice(y, SetAndLeave(x, k));
      && Iterate(m, None, post, body, o + [Flag(y, 0)] + [map[]], 2) == Normal(a + [top])
      && Iterate(m, None, Nop, body, o + [Flag(y, 0)] + [map[]], 2) == Normal(b + [map[]])
    ensures !PostRight(post)
  {
    hide Exec, AllFit, Get, Enc, Iterate, Twice, Flag, Placed, Run, Ready, LowerStmt, Flatten, Rel;
    var fin, env := SetAndLeave(x, k), o + [Flag(y, 0)];
    ShowerRuns(m, y, fin, post, env);
    assert (a + [top])[..|a|] == a && (b + [map[]])[..|b|] == b;
    FlagFits(m, o, y);
    GetInner(o, y, 0, x);
    var st, code, locals := Placing(m, y, fin, x, post, env);
    BareReady(m, Shower(y, fin, post), st, code, 0, env, locals);
    StmtSim(m, Bare(None, Twice(y, fin)), st, code, 0, env, locals, 2);
    SmallEnc(m, k);
    var c, sc := Start(0, locals), LowerStmt(Bare(None, Twice(y, fin)), st).1.scopes;
    assert Stands(m, code, c, |code|, sc, b, |locals|);
    if PostRight(post) {
      assert Agrees(m, Shower(y, fin, post), st, code, 0, env, locals, 2);
      assert Stands(m, code, c, |code|, sc, a, |locals|);
      OneFrame(m, code, c, sc, a, b, |locals|, x);
    }
  }

  lemma SmallEnc(m: Machine, k: nat)
    requires k <= 1
    ensures Enc(m, IntV(k)) == k && Fits(m, IntV(k))
  {
  }

  lemma OneFrame(m: Machine, code: seq<Inst>, c: Conf, sc: Scopes, a: Env, b: Env, size: nat, x: string)
    requires Stands(m, code, c, |code|, sc, a, size) && Stands(m, code, c, |code|, sc, b, size)
    requires Get(a, x).Some? && Get(b, x).Some?
    ensures Enc(m, Get(a, x).value) == Enc(m, Get(b, x).value)
  {
    hide Reach, Rel, Get, Enc;
    var s: seq<int> :| Reach(m, code, c, Start(|code|, s)) && |s| == size && Rel(m, sc, a, s);
    var t: seq<int> :| Reach(m, code, c, Start(|code|, t)) && |t| == size && Rel(m, sc, b, t);
    Departures.EndOnce(m, code, c, s, t);
    GetRel(m, sc, a, s, x);
    GetRel(m, sc, b, t, x);
  }

  // ----- the exact condition -----

  /** A post is compiled right exactly when executing it never yields a changed environment. */
  lemma PostRightExactly(post: Stmt)
    requires IsPost(post)
    ensures PostRight(post) <==> Unchanging(post)
  {
    if Unchanging(post) {
      forall m: Machine, e0: Expr, test: Option<Expr>, body: seq<Stmt>, st: St, code: seq<Inst>, pc: nat, env: Env,
             locals: seq<int>, fuel: nat | Placed(m, ExprLoop(e0, test, post, body), st, code, pc, env, locals)
        ensures Agrees(m, ExprLoop(e0, test, post, body), st, code, pc, env, locals, fuel)
      {
        DropFor(m, e0, test, post, body, st, code, pc, env, locals, fuel);
      }
    } else {
      hide Exec, AllFit, SameWords, PostRight;
      var m: Machine, env: Env, fuel: nat :|
        AllFit(m, env) && Exec(m, post, env, fuel).Normal? && !SameWords(m, env, Exec(m, post, env, fuel).env);
      if Stores(post) {
        StoreShows(m, post, env, fuel);
      } else if post.Decl? {
        DeclHasValue(m, post, env, fuel);
        DeclShows(m, post.x, post.e, env);
      } else {
        IdleSame(m, post, env, fuel);
      }
    }
  }

  lemma DeclHasValue(m: Machine, post: Stmt, env: Env, fuel: nat)
    requires post.Decl? && Exec(m, post, env, fuel).Normal?
    ensures Value1(m, post.e, env).Some?
  {
  }

  lemma IdleSame(m: Machine, post: Stmt, env: Env, fuel: nat)
    requires (post.Nop? || post.Eval? || (post.Assign? && post.x == BLANK)) && AllFit(m, env)
    requires Exec(m, post, env, fuel).Normal?
    ensures SameWords(m, env, Exec(m, post, env, fuel).env)
  {
  }

  // ----- which posts those are -----

  /** No post, an expression, an assignment to the blank name: right. */
  lemma IdlePosts(post: Stmt)
    requires post.Nop? || post.Eval? || (post.Assign? && post.x == BLANK)
    ensures PostRight(post)
  {
    hide Exec, AllFit, SameWords, PostRight;
    forall m: Machine, env: Env, fuel: nat | AllFit(m, env) && Exec(m, post, env, fuel).Normal?
      ensures SameWords(m, env, Exec(m, post, env, fuel).env)
    {
      IdleSame(m, post, env, fuel);
    }
    PostRightExactly(post);
  }

  /** Counting up or down by k, x++ included: right exactly when k is 0, or no int of any target. */
  lemma StepPosts(x: string, op: BinOp, k: nat)
    requires x != BLANK && (op.Add? || op.Sub?)
    ensures !PostRight(Inc(x))
    ensures PostRight(OpAssign(x, op, Lit(k))) <==> k == 0 || k >= TWO64 / 2
  {
    hide PostRight, Unchanging;
    var post := OpAssign(x, op, Lit(k));
    PostRightExactly(post);
    PostRightExactly(Inc(x));
    StepChanges(x, Add, 1, Inc(x));
    if 0 < k < TWO64 / 2 {
      StepChanges(x, op, k, post);
    } else {
      StepStays(x, op, k);
    }
  }

  lemma StepChanges(x: string, op: BinOp, k: nat, post: Stmt)
    requires Stores(post) && post.x == x && Stored(post) == Binary(op, Var(x), Lit(k))
    requires (op.Add? || op.Sub?) && 0 < k < TWO64 / 2
    ensures !Unchanging(post)
  {
    hide Value1, Exec, Stored, Unchanging;
    var none: Env := [];
    var d: int := if op.Add? then k else 0 - k;
    var zero := map[x := IntV(0)];
    StepValue(x, op, k, d);
    StoreIs(Vm64, post, [zero], 0);
    assert none + [zero] == [zero] && none + [zero[x := IntV(d)]] == [zero[x := IntV(d)]];
    SetPush(none, zero, x, IntV(d));
    StepWord(d);
    TopChanges(Vm64, post, x, none, IntV(0), zero[x := IntV(d)]);
  }

  lemma StepWord(d: int)
    requires -(TWO64 / 2) < d < TWO64 / 2 && d != 0
    ensures Enc(Vm64, IntV(d)) != Enc(Vm64, IntV(0)) && Fits(Vm64, IntV(0))
  {
  }

  lemma StepValue(x: string, op: BinOp, k: nat, d: int)
    requires (op.Add? || op.Sub?) && k < TWO64 / 2 && (op.Add? ==> d == k) && (op.Sub? ==> d == 0 - k)
    ensures Value1(Vm64, Binary(op, Var(x), Lit(k)), [map[x := IntV(0)]]) == Some(IntV(d))
  {
    var env: Env := [map[x := IntV(0)]];
    assert Value1(Vm64, Var(x), env) == Some(IntV(0));
    LitIs(Vm64, k, env);
    assert Wrap(Vm64, d) == d;
  }

  lemma StepStays(x: string, op: BinOp, k: nat)
    requires x != BLANK && (op.Add? || op.Sub?) && (k == 0 || k >= TWO64 / 2)
    ensures Unchanging(OpAssign(x, op, Lit(k)))
  {
    var post := OpAssign(x, op, Lit(k));
    forall m: Machine, env: Env, fuel: nat | AllFit(m, env) && Exec(m, post, env, fuel).Normal?
      ensures SameWords(m, env, Exec(m, post, env, fuel).env)
    {
      StepOne(m, x, op, k, env, fuel);
    }
  }

  lemma StepOne(m: Machine, x: string, op: BinOp, k: nat, env: Env, fuel: nat)
    requires x != BLANK && (op.Add? || op.Sub?) && (k == 0 || k >= TWO64 / 2)
    requires AllFit(m, env) && Exec(m, OpAssign(x, op, Lit(k)), env, fuel).Normal?
    ensures SameWords(m, env, Exec(m, OpAssign(x, op, Lit(k)), env, fuel).env)
  {
    hide AllFit, SameWords, Set, Get, Value1, Wrap, Fits;
    StepNothing(m, x, op, k, env);
    var u := Get(env, x).value;
    GetFits(m, env, x);
    WrapSame(m, u.i);
    SetSame(m, env, x, u);
  }

  lemma StepNothing(m: Machine, x: string, op: BinOp, k: nat, env: Env)
    requires (op.Add? || op.Sub?) && (k == 0 || k >= TWO64 / 2) && Value1(m, Binary(op, Var(x), Lit(k)), env).Some?
    ensures Get(env, x).Some? && Get(env, x).value.IntV?
    ensures Value1(m, Binary(op, Var(x), Lit(k)), env) == Some(IntV(Wrap(m, Get(env, x).value.i)))
  {
    hide Get, Wrap;
    assert Value1(m, Lit(k), env).Some? && k == 0;
  }

  lemma WrapSame(m: Machine, i: int)
    requires Fits(m, IntV(i))
    ensures Wrap(m, i) == i
  {
    SignedEnc(m, i);
  }

  /** The expression has a value nowhere. */
  ghost predicate Senseless(e: Expr) {
    forall m: Machine, env: Env :: AllFit(m, env) ==> Value1(m, e, env).None?
  }

  /** An assignment of an expression that does not read the variable, and a declaration: wrong as
      soon as the expression has a value at all. */
  lemma PlainPosts(x: string, e: Expr)
    requires x != BLANK
    ensures !Mentions(e, x) ==> (PostRight(Assign(x, e)) <==> Senseless(e))
    ensures PostRight(Decl(x, e)) <==> Senseless(e)
  {
    hide PostRight, Unchanging, Value1, AllFit, Senseless;
    PostRightExactly(Assign(x, e));
    PostRightExactly(Decl(x, e));
    if Senseless(e) {
      SenselessStays(x, e);
    } else {
      var m, env := Sense(e);
      if !Mentions(e, x) {
        PlainChanges(m, x, e, env);
      }
      DeclChanges(m, x, e, env);
    }
  }

  lemma Sense(e: Expr) returns (m: Machine, env: Env)
    requires !Senseless(e)
    ensures AllFit(m, env) && Value1(m, e, env).Some?
  {
    hide AllFit, Value1;
    m, env :| AllFit(m, env) && Value1(m, e, env).Some?;
  }

  lemma SenselessStays(x: string, e: Expr)
    requires Senseless(e) && x != BLANK
    ensures Unchanging(Assign(x, e)) && Unchanging(Decl(x, e))
  {
    hide AllFit, Value1, SameWords;
    forall m: Machine, env: Env, fuel: nat | AllFit(m, env)
      ensures !Exec(m, Assign(x, e), env, fuel).Normal? && !Exec(m, Decl(x, e), env, fuel).Normal?
    {
      assert Value1(m, e, env).None?;
    }
  }

  /** In a scope where x has another word. */
  lemma PlainChanges(m: Machine, x: string, e: Expr, env: Env)
    requires x != BLANK && !Mentions(e, x) && AllFit(m, env) && Value1(m, e, env).Some?
    ensures !Unchanging(Assign(x, e))
  {
    hide Value1, Get, Set, Mentions, Enc, Unchanging, AllFit;
    var v := Value1(m, e, env).value;
    var w := if Enc(m, v) == 0 then IntV(1) else IntV(0);
    var o := env + [map[x := w]];
    forall z | Mentions(e, z) && Get(env, z).Some?
      ensures Get(o, z) == Get(env, z)
    {
      GetPush(env, map[x := w], z);
    }
    SameEval(m, e, env, o);
    SetPush(env, map[x := w], x, v);
    assert Exec(m, Assign(x, e), o, 0) == Normal(env + [map[x := w][x := v]]);
    SmallEnc(m, 0);
    SmallEnc(m, 1);
    TopChanges(m, Assign(x, e), x, env, w, map[x := w][x := v]);
  }

  lemma TopChanges(m: Machine, s: Stmt, x: string, env: Env, w: Value, top: map<string, Value>)
    requires AllFit(m, env) && Fits(m, w) && x in top && Enc(m, top[x]) != Enc(m, w)
    requires Exec(m, s, env + [map[x := w]], 0) == Normal(env + [top])
    ensures !Unchanging(s)
  {
    hide Exec, Enc, Fits;
    var o, n := env + [map[x := w]], |env|;
    forall i, z | 0 <= i < |o| && z in o[i]
      ensures Fits(m, o[i][z])
    {
      if i < n {
        assert o[i] == env[i];
      }
    }
    assert AllFit(m, o);
    assert x in o[n] && (env + [top])[n][x] == top[x];
    assert !SameWords(m, o, Exec(m, s, o, 0).env);
  }

  /** In a scope where x is not yet declared. */
  lemma DeclChanges(m: Machine, x: string, e: Expr, env: Env)
    requires AllFit(m, env) && Value1(m, e, env).Some?
    ensures !Unchanging(Decl(x, e))
  {
    hide Value1, Get, Fits;
    var v, o := Value1(m, e, env).value, env + [map[]];
    forall z | Mentions(e, z) && Get(env, z).Some?
      ensures Get(o, z) == Get(env, z)
    {
      GetPush(env, map[], z);
    }
    SameEval(m, e, env, o);
    DeclareTop(env, map[], x, v);
    var r := Exec(m, Decl(x, e), o, 0);
    assert r == Normal(env + [map[x := v]]);
    forall i, z | 0 <= i < |o| && z in o[i]
      ensures Fits(m, o[i][z])
    {
      assert o[i] == env[i];
    }
    assert AllFit(m, o);
    assert x in r.env[|env|] && x !in o[|env|];
    assert !SameWords(m, o, r.env);
  }
}
