/** The lowering preserves the meaning of statements, loops included: when evaluation ends
    the code ends the same way, when it does not the code keeps running. */
module LowerStmts {
  import opened Ir
  import opened Shape
  import opened Ast
  import opened Lower
  import opened Lowered
  import opened LowerCorrect

  function Start(pc: nat, locals: seq<int>): Conf {
    Running(pc, State([], locals))
  }

  /** From c the machine gets to pc with an empty operand stack and these variables. */
  ghost predicate Stands(m: Machine, code: seq<Inst>, c: Conf, pc: nat, sc: Scopes, env: Env, size: nat) {
    exists locals: seq<int> :: Reach(m, code, c, Start(pc, locals)) && |locals| == size && Rel(m, sc, env, locals)
  }

  /** From c the machine does what the outcome says: st is the state in which the statement
      was lowered, next the position after its code, st' the state there. */
  ghost predicate Ends(m: Machine, code: seq<Inst>, c: Conf, o: Outcome, next: nat, st': St, st: St, size: nat, fuel: nat) {
    match o
    case Normal(e) => Stands(m, code, c, next, st'.scopes, e, size)
    case Broke(e) =>
      st.brks != [] ==> Stands(m, code, c, LabelPos(code, st.brks[|st.brks| - 1]), st.scopes, e, size)
    case Continued(e) =>
      st.conts != [] ==> Stands(m, code, c, LabelPos(code, st.conts[|st.conts| - 1]), st.scopes, e, size)
    case Returned(vs) => Reach(m, code, c, Done(EncAll(m, vs)))
    case Timeout => Busy(m, code, c, fuel)
    case Stuck => true
  }

  lemma StandsAt(m: Machine, code: seq<Inst>, c: Conf, pc: nat, sc: Scopes, env: Env, locals: seq<int>)
    requires Reach(m, code, c, Start(pc, locals)) && Rel(m, sc, env, locals)
    ensures Stands(m, code, c, pc, sc, env, |locals|)
  {
  }

  lemma StandsLater(m: Machine, code: seq<Inst>, c: Conf, d: Conf, pc: nat, sc: Scopes, env: Env, size: nat)
    requires Reach(m, code, c, d) && Stands(m, code, d, pc, sc, env, size)
    ensures Stands(m, code, c, pc, sc, env, size)
  {
    hide Reach, Rel;
    var ls :| Reach(m, code, d, Start(pc, ls)) && |ls| == size && Rel(m, sc, env, ls);
    ReachTrans(m, code, c, d, Start(pc, ls));
  }

  lemma EndsLater(m: Machine, code: seq<Inst>, c: Conf, d: Conf, o: Outcome, next: nat, st': St, st: St, size: nat,
                  fuel: nat)
    requires Reach(m, code, c, d) && Ends(m, code, d, o, next, st', st, size, fuel)
    ensures Ends(m, code, c, o, next, st', st, size, fuel)
  {
    hide Reach, Stands, Busy, Rel, LabelPos;
    match o
    case Normal(e) => StandsLater(m, code, c, d, next, st'.scopes, e, size);
    case Broke(e) =>
      if st.brks != [] {
        StandsLater(m, code, c, d, LabelPos(code, st.brks[|st.brks| - 1]), st.scopes, e, size);
      }
    case Continued(e) =>
      if st.conts != [] {
        StandsLater(m, code, c, d, LabelPos(code, st.conts[|st.conts| - 1]), st.scopes, e, size);
      }
    case Returned(vs) => ReachTrans(m, code, c, d, Done(EncAll(m, vs)));
    case Timeout => BusyLater(m, code, c, d, fuel);
    case Stuck =>
  }

  /** Control flows from p to q without touching anything. */
  ghost predicate Flows(m: Machine, code: seq<Inst>, p: nat, q: nat) {
    forall locals: seq<int> :: Reach(m, code, Start(p, locals), Start(q, locals))
  }

  lemma FlowsLabel(m: Machine, code: seq<Inst>, p: nat)
    requires p < |code| && code[p].Label?
    ensures Flows(m, code, p, p + 1)
  {
    forall ls: seq<int>
      ensures Reach(m, code, Start(p, ls), Start(p + 1, ls))
    {
      ReachStep(m, code, Start(p, ls));
    }
  }

  lemma FlowsJump(m: Machine, code: seq<Inst>, p: nat, q: nat)
    requires p < |code| && q < |code| && code[q].Label? && code[p] == Jmp(code[q].l) && DistinctLabels(code)
    ensures Flows(m, code, p, q)
  {
    LabelPosFound(code, q);
    forall ls: seq<int>
      ensures Reach(m, code, Start(p, ls), Start(q, ls))
    {
      ReachStep(m, code, Start(p, ls));
    }
  }

  lemma FlowsTrans(m: Machine, code: seq<Inst>, p: nat, q: nat, r: nat)
    requires Flows(m, code, p, q) && Flows(m, code, q, r)
    ensures Flows(m, code, p, r)
  {
    hide Reach;
    forall ls: seq<int>
      ensures Reach(m, code, Start(p, ls), Start(r, ls))
    {
      ReachTrans(m, code, Start(p, ls), Start(q, ls), Start(r, ls));
    }
  }

  lemma StandsOn(m: Machine, code: seq<Inst>, c: Conf, p: nat, q: nat, sc: Scopes, env: Env, size: nat)
    requires Stands(m, code, c, p, sc, env, size) && Flows(m, code, p, q)
    ensures Stands(m, code, c, q, sc, env, size)
  {
    hide Reach, Rel;
    var ls :| Reach(m, code, c, Start(p, ls)) && |ls| == size && Rel(m, sc, env, ls);
    ReachTrans(m, code, c, Start(p, ls), Start(q, ls));
  }

  /** What a state tells a jump. */
  ghost predicate Alike(a: St, b: St) {
    a.scopes == b.scopes && a.brks == b.brks && a.conts == b.conts
  }

  lemma EndsOn(m: Machine, code: seq<Inst>, c: Conf, o: Outcome, p: nat, a': St, a: St, q: nat, b': St, b: St,
               size: nat, fuel: nat)
    requires Ends(m, code, c, o, p, a', a, size, fuel) && Flows(m, code, p, q)
    requires a'.scopes == b'.scopes && Alike(a, b)
    ensures Ends(m, code, c, o, q, b', b, size, fuel)
  {
    hide Reach, Stands, Busy, Rel, LabelPos, Flows;
    if o.Normal? {
      StandsOn(m, code, c, p, q, a'.scopes, o.env, size);
    }
  }

  // ----- statements without control flow -----

  /** What every statement's proof starts from. */
  ghost predicate Ready(m: Machine, s: Stmt, st: St, code: seq<Inst>, pc: nat, env: Env, locals: seq<int>) {
    && At(code, pc, Flatten(LowerStmt(s, st).0)) && DistinctLabels(code) && InFragment(s)
    && Slots(st.scopes, st.n) && st.scopes != [] && Rel(m, st.scopes, env, locals)
    && LowerStmt(s, st).1.n <= |locals|
  }

  /** An expression, then a store of its value. */
  lemma ExprThen(m: Machine, e: Expr, sc: Scopes, l: nat, i: Inst, code: seq<Inst>, pc: nat, env: Env,
                 locals: seq<int>, v: Value, locals': seq<int>)
    requires At(code, pc, Flatten(LowerExpr(e, sc, l).0 + [Plain(i)])) && DistinctLabels(code)
    requires Rel(m, sc, env, locals) && Value1(m, e, env) == Some(v)
    requires CanRun(i, State([Enc(m, v)], locals)) && Apply(m, i, State([Enc(m, v)], locals)) == State([], locals')
    ensures Reach(m, code, Start(pc, locals), Start(pc + |Flatten(LowerExpr(e, sc, l).0 + [Plain(i)])|, locals'))
    ensures Fits(m, v)
  {
    hide Rel, At, Reach, Flatten, LowerExpr, DistinctLabels, Value1, Apply, CanRun;
    var x := LowerExpr(e, sc, l).0;
    ItemsSplit(code, pc, x, [Plain(i)]);
    var s := State([], locals);
    ExprSim(m, e, sc, l, code, pc, env, s, v);
    assert [] + [Enc(m, v)] == [Enc(m, v)];
    var p := pc + |Flatten(x)|;
    PlainReach(m, code, p, i, State([Enc(m, v)], locals));
    ReachTrans(m, code, Start(pc, locals), Running(p, State([Enc(m, v)], locals)), Start(p + 1, locals'));
  }

  lemma StoreApply(m: Machine, v: Value, k: nat, locals: seq<int>)
    requires k < |locals|
    ensures var s := State([Enc(m, v)], locals);
      CanRun(LocalSet(k), s) && Apply(m, LocalSet(k), s) == State([], locals[k := Enc(m, v)])
  {
    assert Enc(m, v) % Modulus(m) == Enc(m, v);
    assert [Enc(m, v)][..0] == [];
  }

  lemma DropApply(m: Machine, x: int, locals: seq<int>)
    ensures CanRun(Inst.Drop, State([x], locals)) && Apply(m, Inst.Drop, State([x], locals)) == State([], locals)
  {
    assert [x][..0] == [];
  }

  /** Assignment to a declared variable. */
  lemma StoreSim(m: Machine, e: Expr, x: string, sc: Scopes, n: nat, l: nat, code: seq<Inst>, pc: nat, env: Env,
                 locals: seq<int>, e': Env)
    requires x != BLANK && At(code, pc, Flatten(LowerExpr(e, sc, l).0 + [StoreTo(sc, x)])) && DistinctLabels(code)
    requires Slots(sc, n) && Rel(m, sc, env, locals)
    requires Update(env, x, Value1(m, e, env)) == Normal(e')
    ensures Stands(m, code, Start(pc, locals), pc + |Flatten(LowerExpr(e, sc, l).0 + [StoreTo(sc, x)])|, sc, e', |locals|)
  {
    hide At, DistinctLabels, Rel, Slots, Flatten, LowerExpr, Value1, Apply, CanRun, Reach, Set, Lookup;
    var v := Value1(m, e, env).value;
    ValueFits(m, e, sc, env, locals);
    SetRel(m, sc, n, env, locals, x, v);
    var k := Lookup(sc, x);
    var locals' := locals[k := Enc(m, v)];
    StoreApply(m, v, k, locals);
    ExprThen(m, e, sc, l, LocalSet(k), code, pc, env, locals, v, locals');
    StandsAt(m, code, Start(pc, locals), pc + |Flatten(LowerExpr(e, sc, l).0 + [StoreTo(sc, x)])|, sc, e', locals');
  }

  /** Values computed from variables that fit do fit. */
  lemma {:induction false} ValueFits(m: Machine, e: Expr, sc: Scopes, env: Env, locals: seq<int>)
    requires Rel(m, sc, env, locals) && Value1(m, e, env).Some?
    ensures Fits(m, Value1(m, e, env).value)
    decreases e
  {
    hide Rel, Signed;
    match e
    case Lit(n) => assert n < Modulus(m) / 2;
    case Var(x) => GetRel(m, sc, env, locals, x);
    case Binary(op, a, b) =>
      ValueFits(m, a, sc, env, locals);
      ValueFits(m, b, sc, env, locals);
      BinEnc(m, op, Value1(m, a, env).value, Value1(m, b, env).value, Value1(m, e, env).value);
    case Negate(a) => WrapFits(m, -Value1(m, a, env).value.i);
    case _ =>
  }

  lemma DeclSim(m: Machine, s: Stmt, st: St, code: seq<Inst>, pc: nat, env: Env, locals: seq<int>, v: Value)
    requires s.Decl? && Ready(m, s, st, code, pc, env, locals) && Value1(m, s.e, env) == Some(v)
    ensures Stands(m, code, Start(pc, locals), pc + |Flatten(LowerStmt(s, st).0)|, LowerStmt(s, st).1.scopes,
                   Declare(env, s.x, v), |locals|)
  {
    hide At, DistinctLabels, Rel, Slots, Flatten, LowerExpr, Value1, Apply, CanRun, Reach, AddName, Declare, Mentions;
    var sc, sc' := st.scopes, AddName(st.scopes, s.x, st.n);
    SameCode(s.e, sc, s.x, st.n, st.l);
    ValueFits(m, s.e, sc, env, locals);
    DeclareRel(m, sc, st.n, env, locals, s.x, v);
    var locals' := locals[st.n := Enc(m, v)];
    StoreApply(m, v, st.n, locals);
    ExprThen(m, s.e, sc, st.l, LocalSet(st.n), code, pc, env, locals, v, locals');
    StandsAt(m, code, Start(pc, locals), pc + |Flatten(LowerStmt(s, st).0)|, sc', Declare(env, s.x, v), locals');
  }

  lemma ZeroSim(m: Machine, s: Stmt, st: St, code: seq<Inst>, pc: nat, env: Env, locals: seq<int>)
    requires s.Zero? && Ready(m, s, st, code, pc, env, locals)
    ensures Stands(m, code, Start(pc, locals), pc + |Flatten(LowerStmt(s, st).0)|, LowerStmt(s, st).1.scopes,
                   Declare(env, s.x, ZeroOf(s.t)), |locals|)
  {
    hide At, DistinctLabels, Rel, Slots, Flatten, Apply, CanRun, Reach, AddName, Declare, Fits, LowerExpr, Enc;
    var v := IntV(0);
    ZeroIs(m, s, st);
    DeclareRel(m, st.scopes, st.n, env, locals, s.x, ZeroOf(s.t));
    var locals' := locals[st.n := Enc(m, v)];
    StoreApply(m, v, st.n, locals);
    ExprThen(m, Lit(0), st.scopes, st.l, LocalSet(st.n), code, pc, env, locals, v, locals');
    StandsAt(m, code, Start(pc, locals), pc + |Flatten(LowerStmt(s, st).0)|, AddName(st.scopes, s.x, st.n),
             Declare(env, s.x, ZeroOf(s.t)), locals');
  }

  lemma ZeroIs(m: Machine, s: Stmt, st: St)
    requires s.Zero?
    ensures LowerStmt(s, st) == (LowerExpr(Lit(0), st.scopes, st.l).0 + [Plain(LocalSet(st.n))], Local(st, s.x))
    ensures Fits(m, IntV(0)) && Fits(m, ZeroOf(s.t)) && Enc(m, ZeroOf(s.t)) == Enc(m, IntV(0))
  {
    assert [Plain(ConstI64(0))] + [Plain(LocalSet(st.n))] == [Plain(ConstI64(0)), Plain(LocalSet(st.n))];
  }

  /** Evaluate and forget. */
  lemma DropSim(m: Machine, e: Expr, sc: Scopes, l: nat, code: seq<Inst>, pc: nat, env: Env, locals: seq<int>)
    requires At(code, pc, Flatten(LowerExpr(e, sc, l).0 + [Plain(Inst.Drop)])) && DistinctLabels(code)
    requires Rel(m, sc, env, locals) && Value1(m, e, env).Some?
    ensures Stands(m, code, Start(pc, locals), pc + |Flatten(LowerExpr(e, sc, l).0 + [Plain(Inst.Drop)])|, sc, env, |locals|)
  {
    hide At, DistinctLabels, Rel, Flatten, LowerExpr, Value1, Apply, CanRun, Reach;
    var v := Value1(m, e, env).value;
    DropApply(m, Enc(m, v), locals);
    ExprThen(m, e, sc, l, Inst.Drop, code, pc, env, locals, v, locals);
    StandsAt(m, code, Start(pc, locals), pc + |Flatten(LowerExpr(e, sc, l).0 + [Plain(Inst.Drop)])|, sc, env, locals);
  }

  lemma ReturnSim(m: Machine, s: Stmt, st: St, code: seq<Inst>, pc: nat, env: Env, locals: seq<int>, vs: seq<Value>)
    requires s.Return? && Ready(m, s, st, code, pc, env, locals) && Values(m, s.es, env) == Some(vs)
    ensures Reach(m, code, Start(pc, locals), Done(EncAll(m, vs)))
  {
    hide At, DistinctLabels, Rel, Slots, Flatten, LowerExprs, Values, Reach, EncAll;
    var x, i := LowerExprs(s.es, st.scopes, st.l).0, Plain(Inst.Return(|s.es|));
    ItemsSplit(code, pc, x, [i]);
    OneItem(code, pc + |Flatten(x)|, i);
    ExprsSim(m, s.es, st.scopes, st.l, code, pc, env, State([], locals), vs);
    var p := pc + |Flatten(x)|;
    assert [] + EncAll(m, vs) == EncAll(m, vs);
    var c := Running(p, State(EncAll(m, vs), locals));
    ReachStep(m, code, c);
    ReachTrans(m, code, Start(pc, locals), c, Done(EncAll(m, vs)));
  }

  /** A jump to the innermost loop's label. */
  lemma JumpSim(m: Machine, l: int, sc: Scopes, code: seq<Inst>, pc: nat, env: Env, locals: seq<int>)
    requires At(code, pc, Flatten([Goto(l)])) && Rel(m, sc, env, locals)
    ensures Stands(m, code, Start(pc, locals), LabelPos(code, l), sc, env, |locals|)
  {
    OneItem(code, pc, Goto(l));
    ReachStep(m, code, Start(pc, locals));
    StandsAt(m, code, Start(pc, locals), LabelPos(code, l), sc, env, locals);
  }

  // ----- statements -----

  lemma {:induction false} StmtSim(m: Machine, s: Stmt, st: St, code: seq<Inst>, pc: nat, env: Env, locals: seq<int>,
                                   fuel: nat)
    requires Ready(m, s, st, code, pc, env, locals)
    ensures Ends(m, code, Start(pc, locals), Exec(m, s, env, fuel), pc + |Flatten(LowerStmt(s, st).0)|,
                 LowerStmt(s, st).1, st, |locals|, fuel)
    decreases fuel, 0, s, 3
  {
    match s
    case If(_, _, _) =>
      IfSim(m, s, st, code, pc, env, locals, fuel);
    case For(_, _, _, _) =>
      ForSim(m, s, st, code, pc, env, locals, fuel);
    case Block(ss) =>
      hide At, DistinctLabels, Rel, Slots, Flatten, Ends;
      BlockSim(m, ss, st, code, pc, env, locals, fuel);
    case _ =>
      hide Ready, Ends, ExecAll;
      FlatStmtSim(m, s, st, code, pc, env, locals, fuel);
  }

  lemma FlatStmtSim(m: Machine, s: Stmt, st: St, code: seq<Inst>, pc: nat, env: Env, locals: seq<int>, fuel: nat)
    requires Ready(m, s, st, code, pc, env, locals) && !s.If? && !s.For? && !s.Block?
    ensures Ends(m, code, Start(pc, locals), Exec(m, s, env, fuel), pc + |Flatten(LowerStmt(s, st).0)|,
                 LowerStmt(s, st).1, st, |locals|, fuel)
  {
    hide At, DistinctLabels, Rel, Slots, Flatten, LowerExpr, LowerExprs, Value1, Values, Reach, Set, Stands, EncAll, Declare;
    match s
    case Nop =>
      FlattenNothing();
      ReachSelf(m, code, Start(pc, locals));
      StandsAt(m, code, Start(pc, locals), pc, st.scopes, env, locals);
    case Decl(x, e) =>
      if Value1(m, e, env).Some? {
        DeclSim(m, s, st, code, pc, env, locals, Value1(m, e, env).value);
      }
    case Zero(x, _) => ZeroSim(m, s, st, code, pc, env, locals);
    case Assign(x, e) =>
      var o := Exec(m, s, env, fuel);
      if x == BLANK {
        if Value1(m, e, env).Some? {
          DropSim(m, e, st.scopes, st.l, code, pc, env, locals);
        }
      } else if o.Normal? {
        StoreSim(m, e, x, st.scopes, st.n, st.l, code, pc, env, locals, o.env);
      }
    case OpAssign(x, op, e) =>
      var o := Exec(m, s, env, fuel);
      if o.Normal? {
        StoreSim(m, Binary(op, Var(x), e), x, st.scopes, st.n, st.l, code, pc, env, locals, o.env);
      }
    case Inc(x) =>
      var o := Exec(m, s, env, fuel);
      if o.Normal? {
        StoreSim(m, Binary(Add, Var(x), Lit(1)), x, st.scopes, st.n, st.l, code, pc, env, locals, o.env);
      }
    case Eval(e) =>
      if Value1(m, e, env).Some? {
        DropSim(m, e, st.scopes, st.l, code, pc, env, locals);
      }
    case Break =>
      if st.brks != [] {
        JumpSim(m, st.brks[|st.brks| - 1], st.scopes, code, pc, env, locals);
      }
    case Continue =>
      if st.conts != [] {
        JumpSim(m, st.conts[|st.conts| - 1], st.scopes, code, pc, env, locals);
      }
    case Return(es) =>
      if Values(m, es, env).Some? {
        ReturnSim(m, s, st, code, pc, env, locals, Values(m, es, env).value);
      }
  }

  lemma FlattenNothing()
    ensures Flatten([]) == []
  {
  }

  // ----- blocks -----

  lemma {:induction false} BlockSim(m: Machine, ss: seq<Stmt>, st: St, code: seq<Inst>, pc: nat, env: Env,
                                    locals: seq<int>, fuel: nat)
    requires At(code, pc, Flatten(LowerBlock(ss, st).0)) && DistinctLabels(code) && AllInFragment(ss)
    requires Slots(st.scopes, st.n) && Rel(m, st.scopes, env, locals) && LowerBlock(ss, st).1.n <= |locals|
    ensures Ends(m, code, Start(pc, locals), Leave(ExecAll(m, ss, env + [map[]], fuel)),
                 pc + |Flatten(LowerBlock(ss, st).0)|, LowerBlock(ss, st).1, st, |locals|, fuel)
    decreases fuel, 0, ss, 1
  {
    hide At, DistinctLabels, Rel, Slots, Flatten, LowerAll, ExecAll, Ends;
    PushSlots(st.scopes, st.n);
    PushRel(m, st.scopes, env, locals);
    AllSim(m, ss, Push(st), code, pc, env + [map[]], locals, fuel);
    EndsLeave(m, code, Start(pc, locals), ExecAll(m, ss, env + [map[]], fuel), pc + |Flatten(LowerBlock(ss, st).0)|,
              LowerAll(ss, Push(st)).1, st, |locals|, fuel);
  }

  /** The outcome of a list of statements; a jump out of it leaves its scope. */
  ghost predicate ListEnds(m: Machine, code: seq<Inst>, c: Conf, o: Outcome, next: nat, st': St, st: St, size: nat,
                           fuel: nat) {
    Ends(m, code, c, if o.Broke? || o.Continued? then Leave(o) else o, next, st', Pop(st), size, fuel)
  }

  lemma EndsLeave(m: Machine, code: seq<Inst>, c: Conf, o: Outcome, next: nat, st': St, st: St, size: nat, fuel: nat)
    requires ListEnds(m, code, c, o, next, st', Push(st), size, fuel) && st'.scopes != []
    ensures Ends(m, code, c, Leave(o), next, Pop(st'), st, size, fuel)
  {
    hide Reach, Busy, Rel, LabelPos;
    assert Pop(Push(st)).scopes == st.scopes;
    if o.Normal? {
      StandsLeave(m, code, c, next, st'.scopes, o.env, size);
    }
  }

  lemma StandsLeave(m: Machine, code: seq<Inst>, c: Conf, pc: nat, sc: Scopes, env: Env, size: nat)
    requires Stands(m, code, c, pc, sc, env, size) && sc != []
    ensures env != [] && Stands(m, code, c, pc, sc[..|sc| - 1], env[..|env| - 1], size)
  {
    hide Reach;
    var ls :| Reach(m, code, c, Start(pc, ls)) && |ls| == size && Rel(m, sc, env, ls);
    PopRel(m, sc, env, ls);
  }

  lemma {:induction false} AllSim(m: Machine, ss: seq<Stmt>, st: St, code: seq<Inst>, pc: nat, env: Env,
                                  locals: seq<int>, fuel: nat)
    requires At(code, pc, Flatten(LowerAll(ss, st).0)) && DistinctLabels(code) && AllInFragment(ss)
    requires Slots(st.scopes, st.n) && st.scopes != [] && Rel(m, st.scopes, env, locals)
    requires LowerAll(ss, st).1.n <= |locals|
    ensures ListEnds(m, code, Start(pc, locals), ExecAll(m, ss, env, fuel), pc + |Flatten(LowerAll(ss, st).0)|,
                     LowerAll(ss, st).1, st, |locals|, fuel)
    ensures LowerAll(ss, st).1.scopes != []
    decreases fuel, 0, ss, 0
  {
    hide At, DistinctLabels, Rel, Slots, Exec, LowerStmt, ListEnds, Ends, Flatten, InFragment, Reach, LowerAll, ExecAll;
    AllFollows(ss, st);
    if ss == [] {
      FlattenNothing();
      NoneLeft(m, st, env, fuel);
      DoneList(m, code, pc, st, env, locals, fuel);
    } else {
      AllFront(m, ss, st, env, fuel);
      var s, c := ss[0], LowerStmt(ss[0], st);
      var d := LowerAll(ss[1..], c.1);
      ItemsSplit(code, pc, c.0, d.0);
      StmtFollows(s, st);
      AllFollows(ss[1..], c.1);
      var p := pc + |Flatten(c.0)|;
      StmtSim(m, s, st, code, pc, env, locals, fuel);
      var o := Exec(m, s, env, fuel);
      if o.Normal? {
        var ls := NormalAt(m, code, Start(pc, locals), o, p, c.1, st, |locals|, fuel);
        AllSim(m, ss[1..], c.1, code, p, o.env, ls, fuel);
        ListLater(m, code, Start(pc, locals), Start(p, ls), ExecAll(m, ss[1..], o.env, fuel), p + |Flatten(d.0)|, d.1,
                  c.1, st, |locals|, fuel);
      } else {
        HeadLeaves(m, code, Start(pc, locals), o, p, c.1, st, p + |Flatten(d.0)|, d.1, |locals|, fuel, s, env);
      }
    }
  }

  lemma NoneLeft(m: Machine, st: St, env: Env, fuel: nat)
    ensures LowerAll([], st) == ([], st) && ExecAll(m, [], env, fuel) == Normal(env)
  {
  }

  /** The first statement of a list and the rest. */
  lemma AllFront(m: Machine, ss: seq<Stmt>, st: St, env: Env, fuel: nat)
    requires ss != []
    ensures var c := LowerStmt(ss[0], st);
      var d := LowerAll(ss[1..], c.1);
      LowerAll(ss, st) == (c.0 + d.0, d.1)
    ensures var o := Exec(m, ss[0], env, fuel);
      ExecAll(m, ss, env, fuel) == if o.Normal? then ExecAll(m, ss[1..], o.env, fuel) else o
  {
    hide LowerStmt, Exec;
  }

  lemma DoneList(m: Machine, code: seq<Inst>, pc: nat, st: St, env: Env, locals: seq<int>, fuel: nat)
    requires Rel(m, st.scopes, env, locals)
    ensures ListEnds(m, code, Start(pc, locals), Normal(env), pc, st, st, |locals|, fuel)
  {
    hide Rel, Reach;
    ReachSelf(m, code, Start(pc, locals));
    StandsAt(m, code, Start(pc, locals), pc, st.scopes, env, locals);
  }

  lemma NormalAt(m: Machine, code: seq<Inst>, c: Conf, o: Outcome, next: nat, st': St, st: St, size: nat, fuel: nat)
    returns (ls: seq<int>)
    requires o.Normal? && Ends(m, code, c, o, next, st', st, size, fuel)
    ensures Reach(m, code, c, Start(next, ls)) && |ls| == size && Rel(m, st'.scopes, o.env, ls)
  {
    hide Reach, Rel;
    ls :| Reach(m, code, c, Start(next, ls)) && |ls| == size && Rel(m, st'.scopes, o.env, ls);
  }

  lemma ListLater(m: Machine, code: seq<Inst>, c: Conf, d: Conf, o: Outcome, next: nat, st': St, st1: St, st: St,
                  size: nat, fuel: nat)
    requires Reach(m, code, c, d) && ListEnds(m, code, d, o, next, st', st1, size, fuel)
    requires Follows(st, st1) && st.scopes != []
    ensures ListEnds(m, code, c, o, next, st', st, size, fuel)
  {
    hide Reach, Stands, Busy;
    EndsLater(m, code, c, d, if o.Broke? || o.Continued? then Leave(o) else o, next, st', Pop(st1), size, fuel);
  }

  /** The first statement of a list ends the list. */
  lemma HeadLeaves(m: Machine, code: seq<Inst>, c: Conf, o: Outcome, p: nat, st1: St, st: St, next: nat, st': St,
                   size: nat, fuel: nat, s: Stmt, env: Env)
    requires Ends(m, code, c, o, p, st1, st, size, fuel) && !o.Normal? && st.scopes != []
    ensures ListEnds(m, code, c, o, next, st', st, size, fuel)
  {
    hide Reach, Busy, Rel, LabelPos;
    if o.Broke? && st.brks != [] {
      StandsLeave(m, code, c, LabelPos(code, st.brks[|st.brks| - 1]), st.scopes, o.env, size);
    } else if o.Continued? && st.conts != [] {
      StandsLeave(m, code, c, LabelPos(code, st.conts[|st.conts| - 1]), st.scopes, o.env, size);
    }
  }

  lemma Split3(code: seq<Inst>, pc: nat, a: seq<Item>, b: seq<Item>, c: seq<Item>)
    requires At(code, pc, Flatten(a + (b + c)))
    ensures At(code, pc, Flatten(a)) && At(code, pc + |Flatten(a)|, Flatten(b))
    ensures At(code, pc + |Flatten(a)| + |Flatten(b)|, Flatten(c))
    ensures |Flatten(a + (b + c))| == |Flatten(a)| + |Flatten(b)| + |Flatten(c)|
  {
    hide Flatten, At;
    ItemsSplit(code, pc, a, b + c);
    ItemsSplit(code, pc + |Flatten(a)|, b, c);
  }

  /** The instruction of an item that is just one. */
  function OneOf(it: Item): Inst
    requires !it.Loop? && !it.Short?
  {
    match it
    case Plain(op) => op
    case Lab(l) => Label(l)
    case Goto(l) => Jmp(l)
    case GotoIf(l) => JmpIf(l)
    case GotoIfNot(l) => JmpIfNot(l)
  }

  lemma OneInst(code: seq<Inst>, pc: nat, it: Item, i: Inst)
    requires At(code, pc, Flatten([it])) && !it.Loop? && !it.Short? && i == OneOf(it)
    ensures pc < |code| && |Flatten([it])| == 1 && code[pc] == i
  {
    OneItem(code, pc, it);
  }

  // ----- if -----

  /** Where the pieces of an `if` stand. */
  lemma IfPieces(code: seq<Inst>, pc: nat, cc: seq<Item>, tt: seq<Item>, ee: seq<Item>, elseL: int, endL: int)
    requires At(code, pc, Flatten(cc + ([GotoIfNot(elseL)] + (tt + ([Goto(endL), Lab(elseL)] + (ee + [Lab(endL)]))))))
    ensures var p1 := pc + |Flatten(cc)|;
      var p3 := p1 + 1 + |Flatten(tt)|;
      var p6 := p3 + 2 + |Flatten(ee)|;
      && At(code, pc, Flatten(cc)) && At(code, p1 + 1, Flatten(tt)) && At(code, p3 + 2, Flatten(ee))
      && p6 < |code| && code[p1] == JmpIfNot(elseL) && code[p3] == Jmp(endL) && code[p3 + 1] == Label(elseL)
      && code[p6] == Label(endL)
      && |Flatten(cc + ([GotoIfNot(elseL)] + (tt + ([Goto(endL), Lab(elseL)] + (ee + [Lab(endL)])))))| == p6 + 1 - pc
  {
    hide Flatten, At, FlatItem;
    var r2 := tt + ([Goto(endL), Lab(elseL)] + (ee + [Lab(endL)]));
    var p1 := pc + |Flatten(cc)|;
    Split3(code, pc, cc, [GotoIfNot(elseL)], r2);
    OneInst(code, p1, GotoIfNot(elseL), JmpIfNot(elseL));
    IfTail(code, p1 + 1, tt, ee, elseL, endL);
  }

  lemma IfTail(code: seq<Inst>, p: nat, tt: seq<Item>, ee: seq<Item>, elseL: int, endL: int)
    requires At(code, p, Flatten(tt + ([Goto(endL), Lab(elseL)] + (ee + [Lab(endL)]))))
    ensures var p3 := p + |Flatten(tt)|;
      var p6 := p3 + 2 + |Flatten(ee)|;
      && At(code, p, Flatten(tt)) && At(code, p3 + 2, Flatten(ee))
      && p6 < |code| && code[p3] == Jmp(endL) && code[p3 + 1] == Label(elseL) && code[p6] == Label(endL)
      && |Flatten(tt + ([Goto(endL), Lab(elseL)] + (ee + [Lab(endL)])))| == p6 + 1 - p
  {
    hide Flatten, At, FlatItem;
    var r := ee + [Lab(endL)];
    assert [Goto(endL), Lab(elseL)] == [Goto(endL)] + ([Lab(elseL)] + []);
    var p3 := p + |Flatten(tt)|;
    Split3(code, p, tt, [Goto(endL), Lab(elseL)], r);
    Split3(code, p3, [Goto(endL)], [Lab(elseL)], []);
    OneInst(code, p3, Goto(endL), Jmp(endL));
    OneInst(code, p3 + 1, Lab(elseL), Label(elseL));
    FlattenNothing();
    ItemsSplit(code, p3 + 2, ee, [Lab(endL)]);
    OneInst(code, p3 + 2 + |Flatten(ee)|, Lab(endL), Label(endL));
  }

  /** A false condition jumps, a true one falls through. */
  lemma BranchStep(m: Machine, code: seq<Inst>, p: nat, q: nat, b: bool, locals: seq<int>)
    requires p < |code| && q < |code| && code[q].Label? && code[p] == JmpIfNot(code[q].l) && DistinctLabels(code)
    ensures Reach(m, code, Running(p, State([FromBool(b)], locals)), Start(if b then p + 1 else q, locals))
  {
    LabelPosFound(code, q);
    assert [FromBool(b)][..0] == [];
    ReachStep(m, code, Running(p, State([FromBool(b)], locals)));
  }

  /** A condition, then the branch on it. */
  lemma CondSim(m: Machine, e: Expr, sc: Scopes, l: nat, code: seq<Inst>, pc: nat, q: nat, env: Env,
                locals: seq<int>, b: bool)
    requires At(code, pc, Flatten(LowerExpr(e, sc, l).0)) && DistinctLabels(code) && Rel(m, sc, env, locals)
    requires Value1(m, e, env) == Some(BoolV(b))
    requires var p := pc + |Flatten(LowerExpr(e, sc, l).0)|;
      p < |code| && q < |code| && code[q].Label? && code[p] == JmpIfNot(code[q].l)
    ensures var p := pc + |Flatten(LowerExpr(e, sc, l).0)|;
      Reach(m, code, Start(pc, locals), Start(if b then p + 1 else q, locals))
  {
    hide At, DistinctLabels, Rel, Flatten, LowerExpr, Value1, Reach;
    var p := pc + |Flatten(LowerExpr(e, sc, l).0)|;
    ExprSim(m, e, sc, l, code, pc, env, State([], locals), BoolV(b));
    assert [] + [FromBool(b)] == [FromBool(b)];
    BranchStep(m, code, p, q, b, locals);
    ReachTrans(m, code, Start(pc, locals), Running(p, State([FromBool(b)], locals)),
               Start(if b then p + 1 else q, locals));
  }

  lemma IfParts(s: Stmt)
    requires s.If? && InFragment(s)
    ensures AllInFragment(s.thn) && InFragment(s.els) && (s.els.Nop? || s.els.If? || s.els.Block?)
  {
  }

  lemma {:induction false} IfSim(m: Machine, s: Stmt, st: St, code: seq<Inst>, pc: nat, env: Env, locals: seq<int>,
                                 fuel: nat)
    requires s.If? && Ready(m, s, st, code, pc, env, locals)
    ensures Ends(m, code, Start(pc, locals), Exec(m, s, env, fuel), pc + |Flatten(LowerStmt(s, st).0)|,
                 LowerStmt(s, st).1, st, |locals|, fuel)
    decreases fuel, 0, s, 2
  {
    hide At, DistinctLabels, Rel, Slots, Flatten, LowerExpr, LowerBlock, LowerStmt, Value1, ExecAll, Reach, Ends, InFragment,
      AllInFragment, Follows;
    IfIs(s, st);
    IfParts(s);
    var cc := LowerExpr(s.cond, st.scopes, st.l + 2);
    var st1 := Labelled(st, cc.1);
    var tt := LowerBlock(s.thn, st1);
    var ee := LowerStmt(s.els, tt.1);
    IfStates(s, st);
    IfPieces(code, pc, cc.0, tt.0, ee.0, st.l, st.l + 1);
    var p1 := pc + |Flatten(cc.0)|;
    var p3 := p1 + 1 + |Flatten(tt.0)|;
    var p6 := p3 + 2 + |Flatten(ee.0)|;
    var v := Value1(m, s.cond, env);
    if v.Some? && v.value.BoolV? {
      var b := v.value.b;
      CondSim(m, s.cond, st.scopes, st.l + 2, code, pc, p3 + 1, env, locals, b);
      FlowsLabel(m, code, p6);
      if b {
        BlockSim(m, s.thn, st1, code, p1 + 1, env, locals, fuel);
        FlowsJump(m, code, p3, p6);
        FlowsTrans(m, code, p3, p6, p6 + 1);
        var o := Leave(ExecAll(m, s.thn, env + [map[]], fuel));
        EndsOn(m, code, Start(p1 + 1, locals), o, p3, tt.1, st1, p6 + 1, ee.1, st, |locals|, fuel);
        EndsLater(m, code, Start(pc, locals), Start(p1 + 1, locals), o, p6 + 1, ee.1, st, |locals|, fuel);
      } else {
        FlowsLabel(m, code, p3 + 1);
        ThroughLabel(m, code, pc, p3 + 1, locals);
        StmtSim(m, s.els, tt.1, code, p3 + 2, env, locals, fuel);
        var o := Exec(m, s.els, env, fuel);
        EndsOn(m, code, Start(p3 + 2, locals), o, p6, ee.1, tt.1, p6 + 1, ee.1, st, |locals|, fuel);
        EndsLater(m, code, Start(pc, locals), Start(p3 + 2, locals), o, p6 + 1, ee.1, st, |locals|, fuel);
      }
    } else {
      IfStuck(m, s, env, fuel);
      StuckEnds(m, code, Start(pc, locals), p6 + 1, ee.1, st, |locals|, fuel);
    }
  }

  lemma IfStuck(m: Machine, s: Stmt, env: Env, fuel: nat)
    requires s.If? && !(Value1(m, s.cond, env).Some? && Value1(m, s.cond, env).value.BoolV?)
    ensures Exec(m, s, env, fuel) == Stuck
  {
  }

  lemma StuckEnds(m: Machine, code: seq<Inst>, c: Conf, next: nat, st': St, st: St, size: nat, fuel: nat)
    ensures Ends(m, code, c, Stuck, next, st', st, size, fuel)
  {
  }

  lemma ThroughLabel(m: Machine, code: seq<Inst>, pc: nat, p: nat, locals: seq<int>)
    requires Reach(m, code, Start(pc, locals), Start(p, locals)) && Flows(m, code, p, p + 1)
    ensures Reach(m, code, Start(pc, locals), Start(p + 1, locals))
  {
    hide Reach;
    ReachTrans(m, code, Start(pc, locals), Start(p, locals), Start(p + 1, locals));
  }

  /** The states between the parts of an `if`. */
  lemma IfStates(s: Stmt, st: St)
    requires s.If? && InFragment(s)
    ensures var st1 := Labelled(st, LowerExpr(s.cond, st.scopes, st.l + 2).1);
      var st2 := LowerBlock(s.thn, st1).1;
      var st3 := LowerStmt(s.els, st2).1;
      && Alike(st1, st) && Alike(st2, st) && st3.scopes == st.scopes && st1.n <= st2.n <= st3.n
      && (Slots(st.scopes, st.n) ==> Slots(st1.scopes, st1.n) && Slots(st2.scopes, st2.n))
  {
    hide LowerExpr, LowerBlock, LowerStmt, InFragment, AllInFragment, Slots;
    IfIs(s, st);
    IfParts(s);
    var st1 := Labelled(st, LowerExpr(s.cond, st.scopes, st.l + 2).1);
    BlockFollows(s.thn, st1);
    var st2 := LowerBlock(s.thn, st1).1;
    StmtFollows(s.els, st2);
  }

  // ----- loops -----

  /** The pieces of a loop, from its head's label on. */
  lemma LoopPieces(code: seq<Inst>, h: nat, l: int, k: int, b: int, cc: seq<Item>, bb: seq<Item>, pp: seq<Item>,
                   post: seq<Item>, body: seq<Item>)
    requires post == [Lab(k)] + (pp + [Goto(l)]) && body == cc + (bb + post)
    requires At(code, h, Flatten([Loop(l, b, body)]))
    ensures var b0 := h + 1 + |Flatten(cc)|;
      var k0 := b0 + |Flatten(bb)|;
      var j0 := k0 + 1 + |Flatten(pp)|;
      && At(code, h + 1, Flatten(cc)) && At(code, b0, Flatten(bb)) && At(code, k0 + 1, Flatten(pp))
      && j0 + 1 < |code| && code[h] == Label(l) && code[k0] == Label(k) && code[j0] == Jmp(l)
      && code[j0 + 1] == Label(b)
      && |Flatten([Loop(l, b, body)])| == j0 + 2 - h
  {
    hide Flatten, At, FlatItem;
    LoopShell(code, h, Loop(l, b, body));
    Split3(code, h + 1, cc, bb, post);
    PostPieces(code, h + 1 + |Flatten(cc)| + |Flatten(bb)|, l, k, pp, post);
  }

  lemma PostPieces(code: seq<Inst>, p: nat, l: int, k: int, pp: seq<Item>, post: seq<Item>)
    requires post == [Lab(k)] + (pp + [Goto(l)]) && At(code, p, Flatten(post))
    ensures At(code, p + 1, Flatten(pp)) && p + 1 + |Flatten(pp)| < |code|
    ensures code[p] == Label(k) && code[p + 1 + |Flatten(pp)|] == Jmp(l)
    ensures |Flatten(post)| == |Flatten(pp)| + 2
  {
    hide Flatten, At, FlatItem;
    Split3(code, p, [Lab(k)], pp, [Goto(l)]);
    OneInst(code, p, Lab(k), Label(k));
    OneInst(code, p + 1 + |Flatten(pp)|, Goto(l), Jmp(l));
  }

  lemma LoopShell(code: seq<Inst>, h: nat, it: Item)
    requires it.Loop? && At(code, h, Flatten([it]))
    ensures At(code, h + 1, Flatten(it.body)) && |Flatten([it])| == |Flatten(it.body)| + 2
    ensures h + 1 + |Flatten(it.body)| < |code| && code[h] == Label(it.head)
    ensures code[h + 1 + |Flatten(it.body)|] == Label(it.brk)
  {
    FlatOne(it);
    var f := Flatten(it.body);
    assert FlatItem(it) == [Label(it.head)] + f + [Label(it.brk)];
    hide Flatten, FlatItem, At;
    AtSplit(code, h, [Label(it.head)] + f, [Label(it.brk)]);
    AtSplit(code, h, [Label(it.head)], f);
    AtFirst(code, h, [Label(it.head)]);
    AtFirst(code, h + 1 + |f|, [Label(it.brk)]);
  }

  /** What the proof of a loop keeps: its code is at h, its labels are the innermost ones. */
  ghost predicate Looping(s: Stmt, l: int, st: St, code: seq<Inst>, h: nat, size: nat) {
    && s.For? && InFragment(s) && DistinctLabels(code)
    && At(code, h, Flatten([Loop(l, l + 2, LowerLoop(s, l, st).0)]))
    && Slots(st.scopes, st.n) && st.scopes != [] && LowerLoop(s, l, st).1.n <= size
    && st.brks != [] && st.brks[|st.brks| - 1] == l + 2 && st.conts != [] && st.conts[|st.conts| - 1] == l + 1
  }

  /** The states and positions inside a loop. */
  datatype Inner = Inner(cc: seq<Item>, bb: seq<Item>, pp: seq<Item>, st1: St, st2: St, b0: nat, k0: nat, j0: nat)

  function InnerOf(s: Stmt, l: int, st: St, h: nat): Inner
    requires s.For?
  {
    var cc := Test(s.test, st.scopes, st.l, l + 2);
    var st1 := Labelled(st, cc.1);
    var bb := LowerBlock(s.body, st1);
    var pp := LowerStmt(s.post, bb.1);
    var b0 := h + 1 + |Flatten(cc.0)|;
    var k0 := b0 + |Flatten(bb.0)|;
    Inner(cc.0, bb.0, pp.0, st1, bb.1, b0, k0, k0 + 1 + |Flatten(pp.0)|)
  }

  lemma InnerFacts(s: Stmt, l: int, st: St, code: seq<Inst>, h: nat, size: nat)
    requires s.For? && Looping(s, l, st, code, h, size)
    ensures var x := InnerOf(s, l, st, h);
      && At(code, h + 1, Flatten(x.cc)) && At(code, x.b0, Flatten(x.bb)) && At(code, x.k0 + 1, Flatten(x.pp))
      && x.j0 + 1 < |code| && code[h] == Label(l) && code[x.k0] == Label(l + 1) && code[x.j0] == Jmp(l)
      && code[x.j0 + 1] == Label(l + 2)
      && |Flatten([Loop(l, l + 2, LowerLoop(s, l, st).0)])| == x.j0 + 2 - h
      && st.conts != [] && LabelPos(code, st.conts[|st.conts| - 1]) == x.k0
      && st.brks != [] && LabelPos(code, st.brks[|st.brks| - 1]) == x.j0 + 1
      && h < |code| && DistinctLabels(code)
      && Alike(x.st1, st) && Alike(x.st2, st) && Slots(x.st1.scopes, x.st1.n) && Slots(x.st2.scopes, x.st2.n)
      && x.st2.n <= size && LowerStmt(s.post, x.st2).1.n <= size && LowerStmt(s.post, x.st2).1.scopes == st.scopes
      && AllInFragment(s.body) && InFragment(s.post) && Simple(s.post)
  {
    hide LowerBlock, Test, At, DistinctLabels, Slots, Flatten;
    var x := InnerOf(s, l, st, h);
    LoopParts(s);
    BlockFollows(s.body, x.st1);
    StmtFollows(s.post, x.st2);
    var post := [Lab(l + 1)] + (x.pp + [Goto(l)]);
    LoopPieces(code, h, l, l + 1, l + 2, x.cc, x.bb, x.pp, post, LowerLoop(s, l, st).0);
    LabelPosFound(code, x.k0);
    LabelPosFound(code, x.j0 + 1);
  }

  /** The test of a loop. */
  lemma TestSim(m: Machine, s: Stmt, l: int, st: St, code: seq<Inst>, h: nat, env: Env, locals: seq<int>, b: bool)
    requires s.For? && Looping(s, l, st, code, h, |locals|) && Rel(m, st.scopes, env, locals)
    requires TestValue(m, s.test, env) == Some(b)
    ensures var x := InnerOf(s, l, st, h);
      Reach(m, code, Start(h + 1, locals), Start(if b then x.b0 else x.j0 + 1, locals))
  {
    hide LowerBlock, LowerLoop, LowerStmt, At, DistinctLabels, Slots, Flatten, LowerExpr, Rel, Reach, Value1;
    InnerFacts(s, l, st, code, h, |locals|);
    if s.test.Some? {
      TestItems(s, l, st, code, h);
      CondSim(m, s.test.value, st.scopes, st.l, code, h + 1, InnerOf(s, l, st, h).j0 + 1, env, locals, b);
    } else {
      FlattenNothing();
      ReachSelf(m, code, Start(h + 1, locals));
    }
  }

  lemma TestItems(s: Stmt, l: int, st: St, code: seq<Inst>, h: nat)
    requires s.For? && s.test.Some? && At(code, h + 1, Flatten(InnerOf(s, l, st, h).cc))
    ensures var e := LowerExpr(s.test.value, st.scopes, st.l).0;
      && At(code, h + 1, Flatten(e)) && h + 1 + |Flatten(e)| < |code|
      && code[h + 1 + |Flatten(e)|] == JmpIfNot(l + 2) && InnerOf(s, l, st, h).b0 == h + 2 + |Flatten(e)|
  {
    hide At, Flatten, LowerExpr, LowerStmt, LowerBlock;
    var e := LowerExpr(s.test.value, st.scopes, st.l).0;
    ItemsSplit(code, h + 1, e, [GotoIfNot(l + 2)]);
    OneItem(code, h + 1 + |Flatten(e)|, GotoIfNot(l + 2));
  }

  lemma {:induction false} IterSim(m: Machine, s: Stmt, l: int, st: St, code: seq<Inst>, h: nat, env: Env,
                                   locals: seq<int>, fuel: nat)
    requires s.For? && Looping(s, l, st, code, h, |locals|) && Rel(m, st.scopes, env, locals)
    ensures Ends(m, code, Start(h, locals), Iterate(m, s.test, s.post, s.body, env, fuel),
                 h + |Flatten([Loop(l, l + 2, LowerLoop(s, l, st).0)])|, st, st, |locals|, fuel)
    decreases fuel, 0, s, 1
  {
    hide Looping, LowerLoop, Flatten, Rel, Reach, ExecAll, Again, InnerOf, LabelPos, Slots, At, DistinctLabels, Ends, Busy;
    var next := h + |Flatten([Loop(l, l + 2, LowerLoop(s, l, st).0)])|;
    var o := Iterate(m, s.test, s.post, s.body, env, fuel);
    var b := TestValue(m, s.test, env);
    if fuel == 0 {
      NotYet(m, code, h, locals, next, st, st);
    } else if b.None? {
      StuckEnds(m, code, Start(h, locals), next, st, st, |locals|, fuel);
    } else {
      InnerFacts(s, l, st, code, h, |locals|);
      var x := InnerOf(s, l, st, h);
      TestSim(m, s, l, st, code, h, env, locals, b.value);
      if !b.value {
        LoopExit(m, code, Start(h + 1, locals), x.j0 + 1, st, env, locals, fuel);
        HeadStep(m, code, h, locals, o, next, st, |locals|, fuel);
      } else {
        BodySim(m, s, l, st, code, h, env, locals, fuel - 1);
        HeadStep(m, code, h, locals, o, next, st, |locals|, fuel);
      }
    }
  }

  lemma NotYet(m: Machine, code: seq<Inst>, h: nat, locals: seq<int>, next: nat, st': St, st: St)
    ensures Ends(m, code, Start(h, locals), Timeout, next, st', st, |locals|, 0)
  {
  }

  /** The step over the head's label pays for one unit of fuel. */
  lemma HeadStep(m: Machine, code: seq<Inst>, h: nat, locals: seq<int>, o: Outcome, next: nat, st: St, size: nat,
                 fuel: nat)
    requires fuel > 0 && h < |code| && code[h].Label?
    requires Ends(m, code, Start(h + 1, locals), o, next, st, st, size, fuel - 1)
    ensures Ends(m, code, Start(h, locals), o, next, st, st, size, fuel)
  {
    hide Run, Reach, Stands, Busy;
    ReachStep(m, code, Start(h, locals));
    if o.Timeout? {
      BusyStep(m, code, Start(h, locals), fuel - 1);
    } else {
      EndsLater(m, code, Start(h, locals), Start(h + 1, locals), o, next, st, st, size, fuel - 1);
    }
  }

  /** The test failed: control is at the break label. */
  lemma LoopExit(m: Machine, code: seq<Inst>, c: Conf, e0: nat, st: St, env: Env, locals: seq<int>, fuel: nat)
    requires Reach(m, code, c, Start(e0, locals)) && Rel(m, st.scopes, env, locals)
    requires e0 < |code| && code[e0].Label? && fuel > 0
    ensures Ends(m, code, c, Normal(env), e0 + 1, st, st, |locals|, fuel - 1)
  {
    hide Run, Reach, Rel;
    FlowsLabel(m, code, e0);
    ReachTrans(m, code, c, Start(e0, locals), Start(e0 + 1, locals));
    StandsAt(m, code, c, e0 + 1, st.scopes, env, locals);
  }

  /** One iteration, from after the head's label on. */
  lemma {:induction false} BodySim(m: Machine, s: Stmt, l: int, st: St, code: seq<Inst>, h: nat, env: Env,
                                   locals: seq<int>, fuel: nat)
    requires s.For? && Looping(s, l, st, code, h, |locals|) && Rel(m, st.scopes, env, locals)
    requires TestValue(m, s.test, env) == Some(true)
    ensures Ends(m, code, Start(h + 1, locals), Iterate(m, s.test, s.post, s.body, env, fuel + 1),
                 h + |Flatten([Loop(l, l + 2, LowerLoop(s, l, st).0)])|, st, st, |locals|, fuel)
    decreases fuel, 2
  {
    hide LowerLoop, LowerBlock, LowerStmt, Flatten, Rel, Reach, ExecAll, Again, LabelPos, Slots, At, DistinctLabels, Ends,
      Busy, InFragment, AllInFragment, Test, Stands, Looping;
    InnerFacts(s, l, st, code, h, |locals|);
    var x := InnerOf(s, l, st, h);
    TestSim(m, s, l, st, code, h, env, locals, true);
    hide TestValue;
    BlockSim(m, s.body, x.st1, code, x.b0, env, locals, fuel);
    var o := Leave(ExecAll(m, s.body, env + [map[]], fuel));
    var next := x.j0 + 2;
    var c := Start(x.b0, locals);
    var r := Iterate(m, s.test, s.post, s.body, env, fuel + 1);
    BodyOutcome(m, s, env, fuel, o);
    if o.Normal? || o.Continued? {
      var ls := BodyGoesOn(m, code, c, o, x.k0, x.st2, x.st1, st, |locals|, fuel, l);
      AgainSim(m, s, l, st, code, h, o.env, ls, fuel);
      EndsLater(m, code, c, Start(x.k0, ls), r, next, st, st, |locals|, fuel);
    } else if o.Broke? {
      BodyBreaks(m, code, c, o, x.k0, x.st2, x.st1, st, x.j0 + 1, |locals|, fuel);
    } else {
      OtherEnds(m, code, c, o, x.k0, x.st2, x.st1, next, st, |locals|, fuel);
    }
    EndsLater(m, code, Start(h + 1, locals), c, r, next, st, st, |locals|, fuel);
  }

  lemma BodyOutcome(m: Machine, s: Stmt, env: Env, fuel: nat, o: Outcome)
    requires s.For? && TestValue(m, s.test, env) == Some(true)
    requires o == Leave(ExecAll(m, s.body, env + [map[]], fuel))
    ensures Iterate(m, s.test, s.post, s.body, env, fuel + 1) ==
      if o.Broke? then Normal(o.env)
      else if o.Normal? || o.Continued? then Again(m, s.test, s.post, s.body, o.env, fuel)
      else o
  {
    hide ExecAll, Leave, TestValue, Again;
  }

  /** The body ended, or jumped to the continue label. */
  lemma BodyGoesOn(m: Machine, code: seq<Inst>, c: Conf, o: Outcome, k0: nat, st2: St, st1: St, st: St, size: nat,
                   fuel: nat, l: int) returns (ls: seq<int>)
    requires (o.Normal? || o.Continued?) && Ends(m, code, c, o, k0, st2, st1, size, fuel)
    requires Alike(st1, st) && Alike(st2, st) && st.conts != [] && LabelPos(code, st.conts[|st.conts| - 1]) == k0
    ensures Reach(m, code, c, Start(k0, ls)) && |ls| == size && Rel(m, st.scopes, o.env, ls)
  {
    hide Reach, Rel, LabelPos;
    assert Stands(m, code, c, k0, st.scopes, o.env, size);
    ls :| Reach(m, code, c, Start(k0, ls)) && |ls| == size && Rel(m, st.scopes, o.env, ls);
  }

  lemma BodyBreaks(m: Machine, code: seq<Inst>, c: Conf, o: Outcome, k0: nat, st2: St, st1: St, st: St, e0: nat,
                   size: nat, fuel: nat)
    requires o.Broke? && Ends(m, code, c, o, k0, st2, st1, size, fuel)
    requires Alike(st1, st) && st.brks != [] && LabelPos(code, st.brks[|st.brks| - 1]) == e0
    requires e0 < |code| && code[e0].Label?
    ensures Ends(m, code, c, Normal(o.env), e0 + 1, st, st, size, fuel)
  {
    hide Reach, Rel, LabelPos, Stands;
    FlowsLabel(m, code, e0);
    StandsOn(m, code, c, e0, e0 + 1, st.scopes, o.env, size);
  }

  lemma OtherEnds(m: Machine, code: seq<Inst>, c: Conf, o: Outcome, p: nat, a': St, a: St, q: nat, b: St, size: nat,
                  fuel: nat)
    requires Ends(m, code, c, o, p, a', a, size, fuel) && !o.Normal? && !o.Broke? && !o.Continued?
    ensures Ends(m, code, c, o, q, b, b, size, fuel)
  {
  }

  /** From the continue label: the post statement, then the jump back. */
  lemma {:induction false} AgainSim(m: Machine, s: Stmt, l: int, st: St, code: seq<Inst>, h: nat, env: Env,
                                    locals: seq<int>, fuel: nat)
    requires s.For? && Looping(s, l, st, code, h, |locals|) && Rel(m, st.scopes, env, locals)
    ensures Ends(m, code, Start(InnerOf(s, l, st, h).k0, locals), Again(m, s.test, s.post, s.body, env, fuel),
                 h + |Flatten([Loop(l, l + 2, LowerLoop(s, l, st).0)])|, st, st, |locals|, fuel)
    decreases fuel, 1
  {
    hide LowerLoop, LowerBlock, LowerStmt, Flatten, Rel, Reach, Exec, Iterate, LabelPos, Slots, At, DistinctLabels, Ends,
      Busy, InFragment, AllInFragment, Test, Stands;
    InnerFacts(s, l, st, code, h, |locals|);
    var x := InnerOf(s, l, st, h);
    StmtSim(m, s.post, x.st2, code, x.k0 + 1, env, locals, fuel);
    var o := Exec(m, s.post, env, fuel);
    var c, d := Start(x.k0, locals), Start(x.k0 + 1, locals);
    var next := x.j0 + 2;
    FlowsLabel(m, code, x.k0);
    var r := Again(m, s.test, s.post, s.body, env, fuel);
    if o.Normal? {
      var ls := NormalAt(m, code, d, o, x.j0, LowerStmt(s.post, x.st2).1, x.st2, |locals|, fuel);
      FlowsJump(m, code, x.j0, h);
      ReachTrans(m, code, d, Start(x.j0, ls), Start(h, ls));
      IterSim(m, s, l, st, code, h, o.env, ls, fuel);
      EndsLater(m, code, d, Start(h, ls), r, next, st, st, |locals|, fuel);
    } else if o.Timeout? {
      OtherEnds(m, code, d, o, x.j0, LowerStmt(s.post, x.st2).1, x.st2, next, st, |locals|, fuel);
    } else {
      StuckEnds(m, code, d, next, st, st, |locals|, fuel);
    }
    EndsLater(m, code, c, d, r, next, st, st, |locals|, fuel);
  }

  /** A whole loop: init, then the iterations. */
  lemma {:induction false} ForSim(m: Machine, s: Stmt, st: St, code: seq<Inst>, pc: nat, env: Env, locals: seq<int>,
                                  fuel: nat)
    requires s.For? && Ready(m, s, st, code, pc, env, locals)
    ensures Ends(m, code, Start(pc, locals), Exec(m, s, env, fuel), pc + |Flatten(LowerStmt(s, st).0)|,
                 LowerStmt(s, st).1, st, |locals|, fuel)
    decreases fuel, 0, s, 2
  {
    hide LowerLoop, LowerStmt, Flatten, Rel, Reach, Iterate, LabelPos, Slots, At, DistinctLabels, Ends, Busy, InFragment,
      Looping, Leave, AfterInit;
    var env0, st0 := env + [map[]], LoopStart(st);
    ForIs(s, st);
    InitReady(m, s, st, code, pc, env, locals);
    var ii := AfterInit(s, st);
    StmtSim(m, s.init, st0, code, pc, env0, locals, fuel);
    var o := Exec(m, s.init, env0, fuel);
    var r := Exec(m, s, env, fuel);
    var c := Start(pc, locals);
    var h := pc + |Flatten(ii.0)|;
    var st' := LowerStmt(s, st).1;
    var next := pc + |Flatten(LowerStmt(s, st).0)|;
    if o.Normal? {
      var ls := NormalAt(m, code, c, o, h, ii.1, st0, |locals|, fuel);
      IterSim(m, s, st.l, ii.1, code, h, o.env, ls, fuel);
      var q := Iterate(m, s.test, s.post, s.body, o.env, fuel);
      ForEnds(m, s, st, code, Start(h, ls), q, next, |locals|, fuel, o.env);
      EndsLater(m, code, c, Start(h, ls), r, next, st', st, |locals|, fuel);
    } else if o.Timeout? {
      TimeoutEnds(m, code, c, h, ii.1, st0, next, st', st, |locals|, fuel);
    } else {
      StuckEnds(m, code, c, next, st', st, |locals|, fuel);
    }
  }

  lemma TimeoutEnds(m: Machine, code: seq<Inst>, c: Conf, p: nat, a': St, a: St, q: nat, b': St, b: St, size: nat,
                    fuel: nat)
    requires Ends(m, code, c, Timeout, p, a', a, size, fuel)
    ensures Ends(m, code, c, Timeout, q, b', b, size, fuel)
  {
  }

  /** Leaving a loop leaves its scope. */
  lemma ForEnds(m: Machine, s: Stmt, st: St, code: seq<Inst>, c: Conf, q: Outcome, next: nat, size: nat, fuel: nat,
                e: Env)
    requires s.For? && InFragment(s) && q == Iterate(m, s.test, s.post, s.body, e, fuel)
    requires Ends(m, code, c, q, next, AfterInit(s, st).1, AfterInit(s, st).1, size, fuel)
    ensures Ends(m, code, c, Leave(q), next, LowerStmt(s, st).1, st, size, fuel)
  {
    hide Reach, Rel, LabelPos, Busy, LowerStmt, LowerLoop;
    IterateKinds(m, s, e, fuel);
    if q.Normal? {
      InitScopes(s, st);
      StandsLeave(m, code, c, next, AfterInit(s, st).1.scopes, q.env, size);
    }
  }

  lemma {:induction false} IterateKinds(m: Machine, s: Stmt, env: Env, fuel: nat)
    requires s.For?
    ensures var q := Iterate(m, s.test, s.post, s.body, env, fuel); !q.Broke? && !q.Continued?
    decreases fuel
  {
    if fuel > 0 && TestValue(m, s.test, env) == Some(true) {
      hide ExecAll, Exec;
      var o := Leave(ExecAll(m, s.body, env + [map[]], fuel - 1));
      BodyOutcome(m, s, env, fuel - 1, o);
      if o.Normal? || o.Continued? {
        var p := Exec(m, s.post, o.env, fuel - 1);
        if p.Normal? {
          IterateKinds(m, s, p.env, fuel - 1);
        }
      }
    }
  }

  /** After the init the outer scopes are as before, and the loop's own scope is open. */
  lemma InitScopes(s: Stmt, st: St)
    requires s.For? && InFragment(s)
    ensures AfterInit(s, st).1.scopes != []
    ensures AfterInit(s, st).1.scopes[..|AfterInit(s, st).1.scopes| - 1] == st.scopes
    ensures LowerStmt(s, st).1.scopes == st.scopes
  {
    hide LowerStmt, Slots, InFragment;
    LoopParts(s);
    ForFollows(s, st);
    if IsAssignment(s.init) {
      StmtFollows(s.init, LoopStart(st));
    }
    assert LoopStart(st).scopes[..|st.scopes|] == st.scopes;
  }

  lemma InitReady(m: Machine, s: Stmt, st: St, code: seq<Inst>, pc: nat, env: Env, locals: seq<int>)
    requires s.For? && Ready(m, s, st, code, pc, env, locals)
    ensures var st0, ii := LoopStart(st), AfterInit(s, st);
      var h := pc + |Flatten(ii.0)|;
      && Ready(m, s.init, st0, code, pc, env + [map[]], locals) && LowerStmt(s.init, st0) == ii
      && Looping(s, st.l, ii.1, code, h, |locals|)
      && pc + |Flatten(LowerStmt(s, st).0)|
         == h + |Flatten([Loop(st.l, st.l + 2, LowerLoop(s, st.l, ii.1).0)])|
  {
    hide LowerStmt, LowerLoop, Slots, Rel, Flatten, At, DistinctLabels, InFragment;
    var st0 := LoopStart(st);
    ForIs(s, st);
    LoopParts(s);
    InitIs(s, st);
    var ii := AfterInit(s, st);
    PushSlots(st.scopes, st.n);
    PushRel(m, st.scopes, env, locals);
    StmtFollows(s.init, st0);
    LoopFollows(s, st.l, ii.1);
    ItemsSplit(code, pc, ii.0, [Loop(st.l, st.l + 2, LowerLoop(s, st.l, ii.1).0)]);
  }

  lemma InitIs(s: Stmt, st: St)
    requires s.For? && InFragment(s)
    ensures LowerStmt(s.init, LoopStart(st)) == AfterInit(s, st) && InFragment(s.init)
  {
  }
}
