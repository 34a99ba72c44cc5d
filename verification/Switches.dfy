/** The `switch` statement with a tag: how it is lowered, what its code does on every machine,
    and when that is what the language asks for.

    The tag stays on the operand stack while the cases are tested. Every test duplicates it; a
    case that matches drops it at its body, and the others find it again at the next label. */
module Switches {
  import opened Ir
  import opened Shape
  import opened Ast
  import opened Lower
  import opened Lowered
  import opened LowerCorrect
  import opened LowerStmts
  import LowerEnds

  datatype Arm = Case(tests: seq<Expr>, body: seq<Stmt>) | Default(body: seq<Stmt>)

  // ----- lowering -----

  /** The tests of one case, each of which jumps to the body if it is equal to the tag. */
  function LowerTests(es: seq<Expr>, bodyL: int, sc: Scopes, l: nat): (seq<Item>, nat) {
    if es == [] then ([], l)
    else
      var x := LowerExpr(es[0], sc, l);
      var y := LowerTests(es[1..], bodyL, sc, x.1);
      ([Plain(Dup)] + (x.0 + ([Plain(Bin(Eq)), GotoIf(bodyL)] + y.0)), y.1)
  }

  /** A case or the default: its body's label comes first, then the next case's. */
  function LowerArm(a: Arm, endL: int, st: St): (seq<Item>, St) {
    match a
    case Case(es, body) =>
      var tt := LowerTests(es, st.l, st.scopes, st.l + 2);
      var bb := LowerBlock(body, Labelled(st, tt.1));
      (tt.0 + ([Goto(st.l + 1), Lab(st.l), Plain(Inst.Drop)] + (bb.0 + [Goto(endL), Lab(st.l + 1)])), bb.1)
    case Default(body) =>
      var bb := LowerBlock(body, Labelled(st, st.l + 2));
      ([Lab(st.l), Plain(Inst.Drop)] + (bb.0 + [Goto(endL)]), bb.1)
  }

  function LowerArms(arms: seq<Arm>, endL: int, st: St): (seq<Item>, St) {
    if arms == [] then ([], st)
    else
      var x := LowerArm(arms[0], endL, st);
      var y := LowerArms(arms[1..], endL, x.1);
      (x.0 + y.0, y.1)
  }

  /** What follows the arms: control that matched nothing drops the tag. */
  function Tail(endL: int): seq<Item> {
    [Plain(Inst.Drop), Lab(endL)]
  }

  function LowerSwitch(tag: Expr, arms: seq<Arm>, st: St): (seq<Item>, St) {
    var cc := LowerExpr(tag, st.scopes, st.l + 1);
    var aa := LowerArms(arms, st.l, Labelled(st, cc.1));
    (cc.0 + (aa.0 + Tail(st.l)), aa.1)
  }

  predicate ArmsInFragment(arms: seq<Arm>) {
    forall i :: 0 <= i < |arms| ==> AllInFragment(arms[i].body)
  }

  /** A function whose body is statements, a switch, and statements. */
  datatype SwitchFunc = SwitchFunc(params: seq<string>, results: nat, before: seq<Stmt>, tag: Expr, arms: seq<Arm>,
                                   after: seq<Stmt>)

  /** The function without its body. */
  function Shell(f: SwitchFunc): Func {
    Func(f.params, f.results, [])
  }

  function AtStart(f: SwitchFunc, l: nat): St {
    Push(Entry(Shell(f), l))
  }

  function Before(f: SwitchFunc, l: nat): (seq<Item>, St) {
    LowerAll(f.before, AtStart(f, l))
  }

  function Middle(f: SwitchFunc, l: nat): (seq<Item>, St) {
    LowerSwitch(f.tag, f.arms, Before(f, l).1)
  }

  function After(f: SwitchFunc, l: nat): (seq<Item>, St) {
    LowerAll(f.after, Middle(f, l).1)
  }

  function BodyOf(f: SwitchFunc, l: nat): seq<Item> {
    Before(f, l).0 + (Middle(f, l).0 + After(f, l).0)
  }

  /** The final RETURN, unless the code already ends in one. */
  function LastReturn(f: SwitchFunc, l: nat): seq<Item> {
    if EndsInReturn(Flatten(BodyOf(f, l))) then [] else [Plain(Inst.Return(0))]
  }

  function ItemsOf(f: SwitchFunc, l: nat): seq<Item> {
    Before(f, l).0 + (Middle(f, l).0 + (After(f, l).0 + LastReturn(f, l)))
  }

  function SlotsOf(f: SwitchFunc, l: nat): nat {
    After(f, l).1.n
  }

  // ----- meaning -----

  /** Whether one of the tests is equal to v, tried left to right; None where a type checker
      would have rejected a test. */
  function Matches(m: Machine, v: Value, es: seq<Expr>, env: Env): Option<bool> {
    if es == [] then Some(false)
    else match Value1(m, es[0], env)
      case None => None
      case Some(w) =>
        match BinaryValue(m, Eq, v, w)
        case Some(BoolV(b)) => if b then Some(true) else Matches(m, v, es[1..], env)
        case _ => None
  }

  /** The arm the code takes, or |arms|: a default takes whatever gets to it. */
  function Pick(m: Machine, v: Value, arms: seq<Arm>, env: Env): (r: Option<nat>)
    ensures r.Some? ==> r.value <= |arms|
  {
    if arms == [] || arms[0].Default? then Some(0)
    else match Matches(m, v, arms[0].tests, env)
      case None => None
      case Some(true) => Some(0)
      case Some(false) => Later(Pick(m, v, arms[1..], env))
  }

  function Later(k: Option<nat>): Option<nat> {
    match k case None => None case Some(n) => Some(n + 1)
  }

  /** What an arm does; a break leaves the statement around the switch. */
  function RunArm(m: Machine, arms: seq<Arm>, k: Option<nat>, env: Env, fuel: nat): Outcome {
    if k.None? then Stuck
    else if k.value >= |arms| then Normal(env)
    else Leave(ExecAll(m, arms[k.value].body, env + [map[]], fuel))
  }

  /** What the code of a switch does. */
  function ExecSwitch(m: Machine, tag: Expr, arms: seq<Arm>, env: Env, fuel: nat): Outcome {
    match Value1(m, tag, env)
    case None => Stuck
    case Some(v) => RunArm(m, arms, Pick(m, v, arms, env), env, fuel)
  }

  /** The first case that lists v, or |arms|. */
  function FirstCase(m: Machine, v: Value, arms: seq<Arm>, env: Env): (r: Option<nat>)
    ensures r.Some? ==> r.value <= |arms|
  {
    if arms == [] then Some(0)
    else if arms[0].Default? then Later(FirstCase(m, v, arms[1..], env))
    else match Matches(m, v, arms[0].tests, env)
      case None => None
      case Some(true) => Some(0)
      case Some(false) => Later(FirstCase(m, v, arms[1..], env))
  }

  /** The position of the default, or |arms|. */
  function DefaultAt(arms: seq<Arm>): (d: nat)
    ensures d <= |arms| && (d < |arms| ==> arms[d].Default?)
    ensures forall i :: 0 <= i < d ==> arms[i].Case?
  {
    if arms == [] || arms[0].Default? then 0 else DefaultAt(arms[1..]) + 1
  }

  /** The arm the language asks for: the first case that lists the value, wherever the default
      stands, and the default only if there is none. */
  function Choice(m: Machine, v: Value, arms: seq<Arm>, env: Env): Option<nat> {
    match FirstCase(m, v, arms, env)
    case None => None
    case Some(k) => Some(if k < |arms| then k else DefaultAt(arms))
  }

  /** What a switch means: a break ends it. */
  function GoSwitch(m: Machine, tag: Expr, arms: seq<Arm>, env: Env, fuel: nat): Outcome {
    match Value1(m, tag, env)
    case None => Stuck
    case Some(v) =>
      match RunArm(m, arms, Choice(m, v, arms, env), env, fuel)
      case Broke(e) => Normal(e)
      case o => o
  }

  // ----- the code does what ExecSwitch says -----

  lemma {:induction false} TestsLabels(es: seq<Expr>, bodyL: int, sc: Scopes, l: nat)
    ensures LowerTests(es, bodyL, sc, l).1 >= l
  {
    if es != [] {
      ExprLabels(es[0], sc, l);
      TestsLabels(es[1..], bodyL, sc, LowerExpr(es[0], sc, l).1);
    }
  }

  /** The state in which the body of an arm is lowered. */
  function AtBody(a: Arm, st: St): St {
    match a
    case Case(es, _) => Labelled(st, LowerTests(es, st.l, st.scopes, st.l + 2).1)
    case Default(_) => Labelled(st, st.l + 2)
  }

  lemma ArmFollows(a: Arm, endL: int, st: St)
    requires AllInFragment(a.body)
    ensures var x := LowerArm(a, endL, st);
      && Follows(st, x.1) && x.1.scopes == st.scopes && x.1 == LowerBlock(a.body, AtBody(a, st)).1
      && AtBody(a, st).l >= st.l + 2 && Follows(AtBody(a, st), x.1) && Alike(AtBody(a, st), st)
  {
    hide Follows, LowerBlock, LowerTests, AllInFragment;
    if a.Case? {
      TestsLabels(a.tests, st.l, st.scopes, st.l + 2);
    }
    var st1 := AtBody(a, st);
    BlockFollows(a.body, st1);
    FollowsLabel(st, st1.l);
    FollowsTrans(st, st1, LowerArm(a, endL, st).1);
  }

  lemma {:induction false} ArmsFollow(arms: seq<Arm>, endL: int, st: St)
    requires ArmsInFragment(arms)
    ensures Follows(st, LowerArms(arms, endL, st).1) && LowerArms(arms, endL, st).1.scopes == st.scopes
  {
    hide Follows, LowerArm, AllInFragment;
    if arms == [] {
      FollowsLabel(st, st.l);
    } else {
      var x := LowerArm(arms[0], endL, st);
      ArmFollows(arms[0], endL, st);
      ArmsFollow(arms[1..], endL, x.1);
      FollowsTrans(st, x.1, LowerArms(arms[1..], endL, x.1).1);
    }
  }

  /** At pc with the tag on the stack. */
  function Tagged(pc: nat, t: int, locals: seq<int>): Conf {
    Running(pc, State([t], locals))
  }

  lemma DupEq(m: Machine, t: int, w: int, locals: seq<int>)
    ensures CanRun(Dup, State([t], locals)) && Apply(m, Dup, State([t], locals)) == State([t, t], locals)
    ensures With(State([t, t], locals), w) == State([t, t, w], locals)
    ensures CanRun(Bin(Eq), State([t, t, w], locals))
    ensures Apply(m, Bin(Eq), State([t, t, w], locals)) == State([t, BinVal(m, Eq, t, w)], locals)
  {
    assert [t] + [t] == [t, t] && [t, t] + [w] == [t, t, w];
    assert [t, t, w][..1] + [BinVal(m, Eq, t, w)] == [t, BinVal(m, Eq, t, w)];
  }

  lemma JumpIfStep(m: Machine, code: seq<Inst>, p: nat, q: nat, t: int, b: bool, locals: seq<int>)
    requires p < |code| && q < |code| && code[q].Label? && code[p] == JmpIf(code[q].l) && DistinctLabels(code)
    ensures Reach(m, code, Running(p, State([t, FromBool(b)], locals)), Tagged(if b then q else p + 1, t, locals))
  {
    LabelPosFound(code, q);
    assert [t, FromBool(b)][..1] == [t];
    ReachStep(m, code, Running(p, State([t, FromBool(b)], locals)));
  }

  /** One test: the tag is still there after it, whichever way it goes. */
  lemma TestSim(m: Machine, e: Expr, bodyL: int, sc: Scopes, l: nat, code: seq<Inst>, pc: nat, q: nat, env: Env,
                locals: seq<int>, v: Value, w: Value)
    requires At(code, pc, Flatten([Plain(Dup)] + (LowerExpr(e, sc, l).0 + [Plain(Bin(Eq)), GotoIf(bodyL)])))
    requires DistinctLabels(code) && Rel(m, sc, env, locals) && Fits(m, v)
    requires q < |code| && code[q] == Label(bodyL)
    requires Value1(m, e, env) == Some(w) && BinaryValue(m, Eq, v, w).Some?
    ensures BinaryValue(m, Eq, v, w).value.BoolV?
    ensures var next := pc + |Flatten([Plain(Dup)] + (LowerExpr(e, sc, l).0 + [Plain(Bin(Eq)), GotoIf(bodyL)]))|;
      Reach(m, code, Tagged(pc, Enc(m, v), locals),
            Tagged(if BinaryValue(m, Eq, v, w).value.b then q else next, Enc(m, v), locals))
  {
    hide At, DistinctLabels, Rel, Flatten, LowerExpr, Value1, Reach, Apply, CanRun, BinVal, With;
    var x, t := LowerExpr(e, sc, l).0, Enc(m, v);
    var r := BinaryValue(m, Eq, v, w).value;
    Split3(code, pc, [Plain(Dup)], x, [Plain(Bin(Eq)), GotoIf(bodyL)]);
    assert [Plain(Bin(Eq)), GotoIf(bodyL)] == [Plain(Bin(Eq))] + [GotoIf(bodyL)];
    DupEq(m, t, Enc(m, w), locals);
    PlainReach(m, code, pc, Dup, State([t], locals));
    var s1 := State([t, t], locals);
    ExprSim(m, e, sc, l, code, pc + 1, env, s1, w);
    var p := pc + 1 + |Flatten(x)|;
    ItemsSplit(code, p, [Plain(Bin(Eq))], [GotoIf(bodyL)]);
    BinEnc(m, Eq, v, w, r);
    PlainReach(m, code, p, Bin(Eq), State([t, t, Enc(m, w)], locals));
    OneInst(code, p + 1, GotoIf(bodyL), JmpIf(bodyL));
    JumpIfStep(m, code, p + 1, q, t, r.b, locals);
    var c := Tagged(pc, t, locals);
    ReachTrans(m, code, c, Running(pc + 1, s1), Running(p, State([t, t, Enc(m, w)], locals)));
    var s3 := State([t, Enc(m, r)], locals);
    ReachTrans(m, code, c, Running(p, State([t, t, Enc(m, w)], locals)), Running(p + 1, s3));
    ReachTrans(m, code, c, Running(p + 1, s3), Tagged(if r.b then q else p + 2, t, locals));
  }

  /** All tests of a case. */
  lemma {:induction false} TestsSim(m: Machine, es: seq<Expr>, bodyL: int, sc: Scopes, l: nat, code: seq<Inst>, pc: nat,
                                    q: nat, env: Env, locals: seq<int>, v: Value)
    requires At(code, pc, Flatten(LowerTests(es, bodyL, sc, l).0))
    requires DistinctLabels(code) && Rel(m, sc, env, locals) && Fits(m, v)
    requires q < |code| && code[q] == Label(bodyL) && Matches(m, v, es, env).Some?
    ensures Reach(m, code, Tagged(pc, Enc(m, v), locals),
                  Tagged(if Matches(m, v, es, env).value then q else pc + |Flatten(LowerTests(es, bodyL, sc, l).0)|,
                         Enc(m, v), locals))
    decreases |es|
  {
    hide At, DistinctLabels, Rel, Flatten, LowerExpr, Value1, Reach, BinaryValue, Enc, Fits;
    var c := Tagged(pc, Enc(m, v), locals);
    FlattenNothing();
    if es == [] {
      ReachSelf(m, code, c);
    } else {
      var x := LowerExpr(es[0], sc, l);
      var y := LowerTests(es[1..], bodyL, sc, x.1);
      var one := [Plain(Dup)] + (x.0 + [Plain(Bin(Eq)), GotoIf(bodyL)]);
      TestRegroup([Plain(Dup)], x.0, [Plain(Bin(Eq)), GotoIf(bodyL)], y.0);
      ItemsSplit(code, pc, one, y.0);
      var w := Value1(m, es[0], env).value;
      TestSim(m, es[0], bodyL, sc, l, code, pc, q, env, locals, v, w);
      if !BinaryValue(m, Eq, v, w).value.b {
        var p := pc + |Flatten(one)|;
        TestsSim(m, es[1..], bodyL, sc, x.1, code, p, q, env, locals, v);
        ReachTrans(m, code, c, Tagged(p, Enc(m, v), locals),
                   Tagged(if Matches(m, v, es[1..], env).value then q else p + |Flatten(y.0)|, Enc(m, v), locals));
      }
    }
  }

  lemma TestRegroup(a: seq<Item>, b: seq<Item>, c: seq<Item>, d: seq<Item>)
    ensures a + (b + (c + d)) == a + (b + c) + d
  {
  }

  /** From the label of a body: the tag goes, the body runs, control leaves to the end label. */
  lemma BodySim(m: Machine, body: seq<Stmt>, l: int, endL: int, st: St, code: seq<Inst>, pc: nat, q: nat, env: Env,
                locals: seq<int>, t: int, fuel: nat)
    requires At(code, pc, Flatten([Lab(l), Plain(Inst.Drop)] + (LowerBlock(body, st).0 + [Goto(endL)])))
    requires DistinctLabels(code) && AllInFragment(body) && q < |code| && code[q] == Label(endL)
    requires Slots(st.scopes, st.n) && Rel(m, st.scopes, env, locals) && LowerBlock(body, st).1.n <= |locals|
    ensures Ends(m, code, Tagged(pc, t, locals), Leave(ExecAll(m, body, env + [map[]], fuel)), q + 1,
                 LowerBlock(body, st).1, st, |locals|, fuel)
  {
    hide At, DistinctLabels, Rel, Slots, Flatten, LowerBlock, Reach, Ends, ExecAll, Apply, CanRun, Flows;
    var bb := LowerBlock(body, st);
    var o := Leave(ExecAll(m, body, env + [map[]], fuel));
    assert [Lab(l), Plain(Inst.Drop)] == [Lab(l)] + [Plain(Inst.Drop)];
    Split3(code, pc, [Lab(l), Plain(Inst.Drop)], bb.0, [Goto(endL)]);
    ItemsSplit(code, pc, [Lab(l)], [Plain(Inst.Drop)]);
    OneInst(code, pc, Lab(l), Label(l));
    DropApply(m, t, locals);
    PlainReach(m, code, pc + 1, Inst.Drop, State([t], locals));
    LabelReach(m, code, pc, State([t], locals));
    ReachTrans(m, code, Tagged(pc, t, locals), Tagged(pc + 1, t, locals), Start(pc + 2, locals));
    BlockSim(m, body, st, code, pc + 2, env, locals, fuel);
    var p := pc + 2 + |Flatten(bb.0)|;
    OneInst(code, p, Goto(endL), Jmp(endL));
    FlowsJump(m, code, p, q);
    FlowsLabel(m, code, q);
    FlowsTrans(m, code, p, q, q + 1);
    EndsOn(m, code, Start(pc + 2, locals), o, p, bb.1, st, q + 1, bb.1, st, |locals|, fuel);
    EndsLater(m, code, Tagged(pc, t, locals), Start(pc + 2, locals), o, q + 1, bb.1, st, |locals|, fuel);
  }

  lemma LabelReach(m: Machine, code: seq<Inst>, p: nat, s: State)
    requires p < |code| && code[p].Label?
    ensures Reach(m, code, Running(p, s), Running(p + 1, s))
  {
    ReachStep(m, code, Running(p, s));
  }

  lemma JumpReach(m: Machine, code: seq<Inst>, p: nat, q: nat, s: State)
    requires p < |code| && q < |code| && code[q].Label? && code[p] == Jmp(code[q].l) && DistinctLabels(code)
    ensures Reach(m, code, Running(p, s), Running(q, s))
  {
    LabelPosFound(code, q);
    ReachStep(m, code, Running(p, s));
  }

  /** Where the pieces of a case stand. */
  lemma CasePieces(code: seq<Inst>, pc: nat, a: Arm, endL: int, st: St)
    requires a.Case? && At(code, pc, Flatten(LowerArm(a, endL, st).0))
    ensures var tt := LowerTests(a.tests, st.l, st.scopes, st.l + 2);
      var bb := LowerBlock(a.body, AtBody(a, st));
      var p := pc + |Flatten(tt.0)|;
      var next := pc + |Flatten(LowerArm(a, endL, st).0)|;
      && At(code, pc, Flatten(tt.0)) && At(code, p + 1, Flatten([Lab(st.l), Plain(Inst.Drop)] + (bb.0 + [Goto(endL)])))
      && p + 1 < next <= |code| && code[p] == Jmp(st.l + 1) && code[p + 1] == Label(st.l)
      && code[next - 1] == Label(st.l + 1)
  {
    hide At, Flatten, LowerTests, LowerBlock;
    var tt := LowerTests(a.tests, st.l, st.scopes, st.l + 2);
    var bb := LowerBlock(a.body, AtBody(a, st));
    var body := [Lab(st.l), Plain(Inst.Drop)] + (bb.0 + [Goto(endL)]);
    CaseRegroup(tt.0, bb.0, st.l, endL);
    ItemsSplit(code, pc, tt.0, [Goto(st.l + 1)] + (body + [Lab(st.l + 1)]));
    var p := pc + |Flatten(tt.0)|;
    Split3(code, p, [Goto(st.l + 1)], body, [Lab(st.l + 1)]);
    OneInst(code, p, Goto(st.l + 1), Jmp(st.l + 1));
    OneInst(code, p + 1 + |Flatten(body)|, Lab(st.l + 1), Label(st.l + 1));
    assert body == [Lab(st.l)] + ([Plain(Inst.Drop)] + (bb.0 + [Goto(endL)]));
    ItemsSplit(code, p + 1, [Lab(st.l)], [Plain(Inst.Drop)] + (bb.0 + [Goto(endL)]));
    OneInst(code, p + 1, Lab(st.l), Label(st.l));
  }

  lemma CaseRegroup(tt: seq<Item>, bb: seq<Item>, l: nat, endL: int)
    ensures tt + ([Goto(l + 1), Lab(l), Plain(Inst.Drop)] + (bb + [Goto(endL), Lab(l + 1)]))
         == tt + ([Goto(l + 1)] + ([Lab(l), Plain(Inst.Drop)] + (bb + [Goto(endL)]) + [Lab(l + 1)]))
  {
  }

  /** What an arm needs of its surroundings. */
  ghost predicate ArmReady(m: Machine, a: Arm, endL: int, st: St, code: seq<Inst>, pc: nat, q: nat, env: Env,
                           locals: seq<int>, v: Value) {
    && At(code, pc, Flatten(LowerArm(a, endL, st).0)) && DistinctLabels(code) && AllInFragment(a.body)
    && q < |code| && code[q] == Label(endL) && Fits(m, v)
    && Slots(st.scopes, st.n) && Rel(m, st.scopes, env, locals) && LowerArm(a, endL, st).1.n <= |locals|
  }

  /** The arm that is taken. */
  lemma TakenSim(m: Machine, a: Arm, endL: int, st: St, code: seq<Inst>, pc: nat, q: nat, env: Env, locals: seq<int>,
                 v: Value, fuel: nat)
    requires ArmReady(m, a, endL, st, code, pc, q, env, locals, v)
    requires a.Case? ==> Matches(m, v, a.tests, env) == Some(true)
    ensures Ends(m, code, Tagged(pc, Enc(m, v), locals), Leave(ExecAll(m, a.body, env + [map[]], fuel)), q + 1,
                 LowerArm(a, endL, st).1, st, |locals|, fuel)
  {
    hide At, DistinctLabels, Rel, Slots, Flatten, LowerBlock, LowerTests, Reach, ExecAll, Ends, Matches, Follows, LowerArm,
      AllInFragment, Fits;
    ArmFollows(a, endL, st);
    var st1 := AtBody(a, st);
    var o, t := Leave(ExecAll(m, a.body, env + [map[]], fuel)), Enc(m, v);
    var p := pc;
    SlotsKept(st, st1);
    if a.Case? {
      CasePieces(code, pc, a, endL, st);
      p := pc + |Flatten(LowerTests(a.tests, st.l, st.scopes, st.l + 2).0)| + 1;
      TestsSim(m, a.tests, st.l, st.scopes, st.l + 2, code, pc, p, env, locals, v);
    } else {
      DefaultIs(a, endL, st);
      ReachSelf(m, code, Tagged(pc, t, locals));
    }
    BodySim(m, a.body, st.l, endL, st1, code, p, q, env, locals, t, fuel);
    EndsLater(m, code, Tagged(pc, t, locals), Tagged(p, t, locals), o, q + 1, LowerArm(a, endL, st).1, st1, |locals|, fuel);
    EndsAlike(m, code, Tagged(pc, t, locals), o, q + 1, LowerArm(a, endL, st).1, st1, st, |locals|, fuel);
  }

  lemma SlotsKept(st: St, st1: St)
    requires Alike(st1, st) && Slots(st.scopes, st.n) && st.n == st1.n
    ensures Slots(st1.scopes, st1.n)
  {
  }

  lemma DefaultIs(a: Arm, endL: int, st: St)
    requires a.Default?
    ensures LowerArm(a, endL, st).0
         == [Lab(st.l), Plain(Inst.Drop)] + (LowerBlock(a.body, AtBody(a, st)).0 + [Goto(endL)])
  {
    hide LowerBlock;
  }

  lemma EndsAlike(m: Machine, code: seq<Inst>, c: Conf, o: Outcome, next: nat, st': St, a: St, b: St, size: nat, fuel: nat)
    requires Ends(m, code, c, o, next, st', a, size, fuel) && Alike(a, b)
    ensures Ends(m, code, c, o, next, st', b, size, fuel)
  {
  }

  /** A case that is not taken hands the tag on to the next arm. */
  lemma PassedSim(m: Machine, a: Arm, endL: int, st: St, code: seq<Inst>, pc: nat, q: nat, env: Env, locals: seq<int>,
                  v: Value)
    requires ArmReady(m, a, endL, st, code, pc, q, env, locals, v)
    requires a.Case? && Matches(m, v, a.tests, env) == Some(false)
    ensures Reach(m, code, Tagged(pc, Enc(m, v), locals),
                  Tagged(pc + |Flatten(LowerArm(a, endL, st).0)|, Enc(m, v), locals))
  {
    hide At, DistinctLabels, Rel, Slots, Flatten, LowerBlock, LowerTests, LowerArm, Reach, Matches, Fits;
    CasePieces(code, pc, a, endL, st);
    var tt := LowerTests(a.tests, st.l, st.scopes, st.l + 2);
    var c, s := Tagged(pc, Enc(m, v), locals), State([Enc(m, v)], locals);
    var p, next := pc + |Flatten(tt.0)|, pc + |Flatten(LowerArm(a, endL, st).0)|;
    TestsSim(m, a.tests, st.l, st.scopes, st.l + 2, code, pc, p + 1, env, locals, v);
    JumpReach(m, code, p, next - 1, s);
    LabelReach(m, code, next - 1, s);
    ReachTrans(m, code, c, Running(p, s), Running(next - 1, s));
    ReachTrans(m, code, c, Running(next - 1, s), Running(next, s));
  }

  /** The code of the arms and what follows it. */
  function ArmsAndTail(arms: seq<Arm>, endL: int, st: St): seq<Item> {
    LowerArms(arms, endL, st).0 + Tail(endL)
  }

  ghost predicate ArmsReady(m: Machine, arms: seq<Arm>, endL: int, st: St, code: seq<Inst>, pc: nat, env: Env,
                            locals: seq<int>, v: Value) {
    && At(code, pc, Flatten(ArmsAndTail(arms, endL, st))) && DistinctLabels(code) && ArmsInFragment(arms) && Fits(m, v)
    && Slots(st.scopes, st.n) && Rel(m, st.scopes, env, locals) && LowerArms(arms, endL, st).1.n <= |locals|
  }

  lemma {:induction false} ArmsSim(m: Machine, arms: seq<Arm>, endL: int, st: St, code: seq<Inst>, pc: nat, env: Env,
                                   locals: seq<int>, v: Value, fuel: nat)
    requires ArmsReady(m, arms, endL, st, code, pc, env, locals, v)
    ensures Ends(m, code, Tagged(pc, Enc(m, v), locals), RunArm(m, arms, Pick(m, v, arms, env), env, fuel),
                 pc + |Flatten(ArmsAndTail(arms, endL, st))|, LowerArms(arms, endL, st).1, st, |locals|, fuel)
    decreases |arms|
  {
    hide Flatten, Ends, LowerArms, ArmsReady, ArmReady, ExecAll, Matches, LowerArm, Reach;
    var c := Tagged(pc, Enc(m, v), locals);
    if arms == [] {
      NoArms(m, endL, st, code, pc, env, locals, v, fuel);
    } else {
      var x := LowerArm(arms[0], endL, st);
      ArmsSplit(m, arms, endL, st, code, pc, env, locals, v);
      var p, q := pc + |Flatten(x.0)|, pc + |Flatten(ArmsAndTail(arms, endL, st))| - 1;
      var r := if arms[0].Default? then Some(true) else Matches(m, v, arms[0].tests, env);
      match r
      case None => StuckEnds(m, code, c, q + 1, LowerArms(arms, endL, st).1, st, |locals|, fuel);
      case Some(taken) =>
        if taken {
          TakenSim(m, arms[0], endL, st, code, pc, q, env, locals, v, fuel);
          SameScopes(m, code, c, Leave(ExecAll(m, arms[0].body, env + [map[]], fuel)), q + 1, x.1,
                     LowerArms(arms, endL, st).1, st, |locals|, fuel);
        } else {
          PassedSim(m, arms[0], endL, st, code, pc, q, env, locals, v);
          ArmsSim(m, arms[1..], endL, x.1, code, p, env, locals, v, fuel);
          var o := RunArm(m, arms[1..], Pick(m, v, arms[1..], env), env, fuel);
          EndsLater(m, code, c, Tagged(p, Enc(m, v), locals), o, q + 1, LowerArms(arms, endL, st).1, x.1, |locals|, fuel);
          EndsAlike(m, code, c, o, q + 1, LowerArms(arms, endL, st).1, x.1, st, |locals|, fuel);
        }
    }
  }

  lemma SameScopes(m: Machine, code: seq<Inst>, c: Conf, o: Outcome, next: nat, a: St, b: St, st: St, size: nat, fuel: nat)
    requires Ends(m, code, c, o, next, a, st, size, fuel) && a.scopes == b.scopes
    ensures Ends(m, code, c, o, next, b, st, size, fuel)
  {
  }

  /** Nothing matched: the tag goes. */
  lemma NoArms(m: Machine, endL: int, st: St, code: seq<Inst>, pc: nat, env: Env, locals: seq<int>, v: Value, fuel: nat)
    requires ArmsReady(m, [], endL, st, code, pc, env, locals, v)
    ensures Ends(m, code, Tagged(pc, Enc(m, v), locals), Normal(env), pc + |Flatten(ArmsAndTail([], endL, st))|,
                 LowerArms([], endL, st).1, st, |locals|, fuel)
  {
    hide At, Flatten, Reach, Rel, Apply, CanRun, Enc;
    var t := Enc(m, v);
    assert ArmsAndTail([], endL, st) == [Plain(Inst.Drop)] + [Lab(endL)];
    ItemsSplit(code, pc, [Plain(Inst.Drop)], [Lab(endL)]);
    DropApply(m, t, locals);
    PlainReach(m, code, pc, Inst.Drop, State([t], locals));
    OneInst(code, pc + 1, Lab(endL), Label(endL));
    LabelReach(m, code, pc + 1, State([], locals));
    ReachTrans(m, code, Tagged(pc, t, locals), Start(pc + 1, locals), Start(pc + 2, locals));
    StandsAt(m, code, Tagged(pc, t, locals), pc + 2, st.scopes, env, locals);
  }

  /** The first arm and the rest. */
  lemma ArmsSplit(m: Machine, arms: seq<Arm>, endL: int, st: St, code: seq<Inst>, pc: nat, env: Env, locals: seq<int>,
                  v: Value)
    requires arms != [] && ArmsReady(m, arms, endL, st, code, pc, env, locals, v)
    ensures var x := LowerArm(arms[0], endL, st);
      var q := pc + |Flatten(ArmsAndTail(arms, endL, st))| - 1;
      && q >= 0 && ArmReady(m, arms[0], endL, st, code, pc, q, env, locals, v)
      && ArmsReady(m, arms[1..], endL, x.1, code, pc + |Flatten(x.0)|, env, locals, v)
      && pc + |Flatten(x.0)| + |Flatten(ArmsAndTail(arms[1..], endL, x.1))| == q + 1
      && LowerArms(arms, endL, st).1 == LowerArms(arms[1..], endL, x.1).1
      && LowerArms(arms, endL, st).1.scopes == x.1.scopes && Alike(x.1, st)
  {
    hide At, Flatten, Rel, LowerArm, Slots, DistinctLabels, AllInFragment;
    var x := LowerArm(arms[0], endL, st);
    var y := LowerArms(arms[1..], endL, x.1);
    assert ArmsAndTail(arms, endL, st) == x.0 + ArmsAndTail(arms[1..], endL, x.1);
    ItemsSplit(code, pc, x.0, ArmsAndTail(arms[1..], endL, x.1));
    var p := pc + |Flatten(x.0)|;
    assert Tail(endL) == [Plain(Inst.Drop)] + [Lab(endL)];
    Split3(code, p, y.0, [Plain(Inst.Drop)], [Lab(endL)]);
    OneInst(code, p + |Flatten(y.0)| + |Flatten([Plain(Inst.Drop)])|, Lab(endL), Label(endL));
    ArmFollows(arms[0], endL, st);
    ArmsFollow(arms[1..], endL, x.1);
  }

  /** The code of a switch does what ExecSwitch says, on every machine. */
  lemma SwitchSim(m: Machine, tag: Expr, arms: seq<Arm>, st: St, code: seq<Inst>, pc: nat, env: Env, locals: seq<int>,
                  fuel: nat)
    requires At(code, pc, Flatten(LowerSwitch(tag, arms, st).0)) && DistinctLabels(code) && ArmsInFragment(arms)
    requires Slots(st.scopes, st.n) && Rel(m, st.scopes, env, locals) && LowerSwitch(tag, arms, st).1.n <= |locals|
    ensures Ends(m, code, Start(pc, locals), ExecSwitch(m, tag, arms, env, fuel),
                 pc + |Flatten(LowerSwitch(tag, arms, st).0)|, LowerSwitch(tag, arms, st).1, st, |locals|, fuel)
  {
    hide At, Flatten, Ends, LowerArms, LowerExpr, Value1, Rel, Slots, DistinctLabels, Reach, RunArm, Pick;
    var cc := LowerExpr(tag, st.scopes, st.l + 1);
    var st1 := Labelled(st, cc.1);
    ItemsSplit(code, pc, cc.0, ArmsAndTail(arms, st.l, st1));
    var p := pc + |Flatten(cc.0)|;
    var next := pc + |Flatten(LowerSwitch(tag, arms, st).0)|;
    match Value1(m, tag, env)
    case None => StuckEnds(m, code, Start(pc, locals), next, LowerSwitch(tag, arms, st).1, st, |locals|, fuel);
    case Some(v) =>
      ExprSim(m, tag, st.scopes, st.l + 1, code, pc, env, State([], locals), v);
      assert With(State([], locals), Enc(m, v)) == State([Enc(m, v)], locals);
      ArmsSim(m, arms, st.l, st1, code, p, env, locals, v, fuel);
      var o := RunArm(m, arms, Pick(m, v, arms, env), env, fuel);
      EndsLater(m, code, Start(pc, locals), Tagged(p, Enc(m, v), locals), o, next, LowerSwitch(tag, arms, st).1, st1,
                |locals|, fuel);
      EndsAlike(m, code, Start(pc, locals), o, next, LowerSwitch(tag, arms, st).1, st1, st, |locals|, fuel);
  }

  // ----- when the code does what the language asks for -----

  /** The code goes wrong exactly when the default is in front of the case that should be taken. */
  lemma {:induction false} PickOrChoice(m: Machine, v: Value, arms: seq<Arm>, env: Env)
    requires FirstCase(m, v, arms, env).Some?
    ensures var k, d := FirstCase(m, v, arms, env).value, DefaultAt(arms);
      && Pick(m, v, arms, env) == Some(if k < d then k else d)
      && (Pick(m, v, arms, env) == Choice(m, v, arms, env) <==> !(d < k < |arms|))
  {
    if arms != [] && arms[0].Case? {
      var r := Matches(m, v, arms[0].tests, env).value;
      if !r {
        PickOrChoice(m, v, arms[1..], env);
      }
    }
  }

  /** No default in front of a case, no break in an arm. */
  predicate Orderly(arms: seq<Arm>) {
    && (forall i :: 0 <= i < |arms| - 1 ==> arms[i].Case?)
    && (forall i :: 0 <= i < |arms| ==> !LowerEnds.AnyBreaks(arms[i].body))
  }

  /** The code of an orderly switch does what the language asks for. */
  lemma {:induction false} OrderlyPick(m: Machine, v: Value, arms: seq<Arm>, env: Env)
    requires forall i :: 0 <= i < |arms| - 1 ==> arms[i].Case?
    ensures Pick(m, v, arms, env) == Choice(m, v, arms, env)
  {
    if FirstCase(m, v, arms, env).Some? {
      PickOrChoice(m, v, arms, env);
    } else {
      StuckPick(m, v, arms, env);
    }
  }

  lemma {:induction false} StuckPick(m: Machine, v: Value, arms: seq<Arm>, env: Env)
    requires FirstCase(m, v, arms, env).None? && forall i :: 0 <= i < |arms| - 1 ==> arms[i].Case?
    ensures Pick(m, v, arms, env).None?
  {
    if arms != [] {
      assert |arms| == 1 ==> arms[1..] == [];
      if arms[0].Case? && Matches(m, v, arms[0].tests, env).Some? {
        StuckPick(m, v, arms[1..], env);
      }
    }
  }

  lemma {:induction false} NoBreak(m: Machine, s: Stmt, env: Env, fuel: nat)
    requires !LowerEnds.Breaks(s)
    ensures !Exec(m, s, env, fuel).Broke?
    decreases fuel, s, 1
  {
    match s
    case If(_, t, e) =>
      NoBreaks(m, t, env + [map[]], fuel);
      NoBreak(m, e, env, fuel);
    case For(init, test, post, body) =>
      var o := Exec(m, init, env + [map[]], fuel);
      if o.Normal? {
        LoopNoBreak(m, test, post, body, o.env, fuel);
      }
    case Block(ss) => NoBreaks(m, ss, env + [map[]], fuel);
    case _ =>
  }

  lemma {:induction false} NoBreaks(m: Machine, ss: seq<Stmt>, env: Env, fuel: nat)
    requires !LowerEnds.AnyBreaks(ss)
    ensures !ExecAll(m, ss, env, fuel).Broke?
    decreases fuel, ss, 0
  {
    if ss != [] {
      NoBreak(m, ss[0], env, fuel);
      match Exec(m, ss[0], env, fuel)
      case Normal(e) => NoBreaks(m, ss[1..], e, fuel);
      case _ =>
    }
  }

  /** A loop ends its own breaks. */
  lemma {:induction false} LoopNoBreak(m: Machine, test: Option<Expr>, post: Stmt, body: seq<Stmt>, env: Env, fuel: nat)
    ensures !Iterate(m, test, post, body, env, fuel).Broke?
    decreases fuel, body, 0
  {
    hide ExecAll, Exec;
    if fuel > 0 && TestValue(m, test, env) == Some(true) {
      match Leave(ExecAll(m, body, env + [map[]], fuel - 1))
      case Normal(e) => AgainNoBreak(m, test, post, body, e, fuel - 1);
      case Continued(e) => AgainNoBreak(m, test, post, body, e, fuel - 1);
      case _ =>
    }
  }

  lemma {:induction false} AgainNoBreak(m: Machine, test: Option<Expr>, post: Stmt, body: seq<Stmt>, env: Env, fuel: nat)
    ensures !Again(m, test, post, body, env, fuel).Broke?
    decreases fuel, body, 1
  {
    hide Iterate, Exec;
    match Exec(m, post, env, fuel)
    case Normal(e) => LoopNoBreak(m, test, post, body, e, fuel);
    case _ =>
  }

  lemma OrderlySwitch(m: Machine, tag: Expr, arms: seq<Arm>, env: Env, fuel: nat)
    requires Orderly(arms)
    ensures ExecSwitch(m, tag, arms, env, fuel) == GoSwitch(m, tag, arms, env, fuel)
  {
    hide ExecAll, Pick, Choice;
    if Value1(m, tag, env).Some? {
      var v := Value1(m, tag, env).value;
      OrderlyPick(m, v, arms, env);
      var k := Pick(m, v, arms, env);
      if k.Some? && k.value < |arms| {
        NoBreaks(m, arms[k.value].body, env + [map[]], fuel);
      }
    }
  }

  /** The value of a constant case. */
  function Constant(e: Expr): Option<int> {
    match e
    case Lit(n) => Some(n)
    case Negate(Lit(n)) => Some(-(n as int))
    case _ => None
  }

  /** Every test is a constant of the machine's int. */
  predicate ConstantCases(m: Machine, arms: seq<Arm>) {
    forall i, j :: 0 <= i < |arms| && arms[i].Case? && 0 <= j < |arms[i].tests| ==>
      Constant(arms[i].tests[j]).Some? && -(Modulus(m) / 2) < Constant(arms[i].tests[j]).value < Modulus(m) / 2
  }

  predicate Lists(a: Arm, n: int) {
    a.Case? && exists j :: 0 <= j < |a.tests| && Constant(a.tests[j]) == Some(n)
  }

  /** Whatever a case after the default lists is listed before it as well. */
  ghost predicate NothingHidden(arms: seq<Arm>) {
    forall j, n :: DefaultAt(arms) < j < |arms| && Lists(arms[j], n) ==>
      exists i :: 0 <= i < DefaultAt(arms) && Lists(arms[i], n)
  }

  lemma ConstantValue(m: Machine, e: Expr, env: Env)
    requires Constant(e).Some? && -(Modulus(m) / 2) < Constant(e).value < Modulus(m) / 2
    ensures Value1(m, e, env) == Some(IntV(Constant(e).value))
  {
    if e.Negate? {
      SmallWrap(m, e.e.n);
    }
  }

  lemma SmallWrap(m: Machine, n: int)
    requires 0 <= n < Modulus(m) / 2
    ensures Wrap(m, -n) == -n
  {
    if n > 0 {
      assert -n % Modulus(m) == Modulus(m) - n;
    }
  }

  lemma {:induction false} MatchesListed(m: Machine, n: int, es: seq<Expr>, env: Env)
    requires forall j :: 0 <= j < |es| ==>
               Constant(es[j]).Some? && -(Modulus(m) / 2) < Constant(es[j]).value < Modulus(m) / 2
    ensures Matches(m, IntV(n), es, env) == Some(exists j :: 0 <= j < |es| && Constant(es[j]) == Some(n))
  {
    if es != [] {
      ConstantValue(m, es[0], env);
      MatchesListed(m, n, es[1..], env);
      assert Constant(es[0]) == Some(n) <==> Constant(es[0]).value == n;
      assert forall j :: 1 <= j < |es| ==> es[j] == es[1..][j - 1];
      if j :| 0 <= j < |es| && Constant(es[j]) == Some(n) {
        if j > 0 {
          assert es[1..][j - 1] == es[j];
        }
      }
    }
  }

  /** Where the first case that lists n is. */
  lemma {:induction false} FirstListed(m: Machine, n: int, arms: seq<Arm>, env: Env)
    requires ConstantCases(m, arms)
    ensures FirstCase(m, IntV(n), arms, env).Some?
    ensures var k := FirstCase(m, IntV(n), arms, env).value;
      (k < |arms| ==> Lists(arms[k], n)) && forall i :: 0 <= i < k ==> !Lists(arms[i], n)
  {
    if arms != [] {
      var a, rest := arms[0], arms[1..];
      assert forall i :: 0 <= i < |rest| ==> rest[i] == arms[i + 1];
      FirstListed(m, n, rest, env);
      if a.Case? {
        MatchesListed(m, n, a.tests, env);
      }
      var k, k' := FirstCase(m, IntV(n), arms, env).value, FirstCase(m, IntV(n), rest, env).value;
      forall i | 0 <= i < k
        ensures !Lists(arms[i], n)
      {
        if i > 0 {
          assert arms[i] == rest[i - 1];
        }
      }
    }
  }

  /** For constant cases the code takes the right arm for every tag exactly when no case after
      the default lists a value that none before it does. */
  lemma OrderRightExactly(m: Machine, arms: seq<Arm>, env: Env)
    requires ConstantCases(m, arms)
    ensures (forall n {:trigger IntV(n)} :: Fits(m, IntV(n)) ==> Pick(m, IntV(n), arms, env) == Choice(m, IntV(n), arms, env))
       <==> NothingHidden(arms)
  {
    hide Pick, Choice, FirstCase, DefaultAt;
    var d := DefaultAt(arms);
    forall n
      ensures Pick(m, IntV(n), arms, env) != Choice(m, IntV(n), arms, env) ==>
                exists j :: d < j < |arms| && Lists(arms[j], n) && forall i :: 0 <= i < d ==> !Lists(arms[i], n)
    {
      FirstListed(m, n, arms, env);
      PickOrChoice(m, IntV(n), arms, env);
    }
    if j, n :| d < j < |arms| && Lists(arms[j], n) && !exists i :: 0 <= i < d && Lists(arms[i], n) {
      FirstListed(m, n, arms, env);
      PickOrChoice(m, IntV(n), arms, env);
      assert Fits(m, IntV(n));
    }
  }
}
