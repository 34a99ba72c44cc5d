/** The shape of a switch: jumps that go forward, labels that are distinct, and the tag on the
    operand stack - and in the temporary - at exactly the labels where it is looked for. */
module SwitchShape {
  import opened Ir
  import opened Shape
  import opened Ast
  import opened Lower
  import opened Lowered
  import opened LowerShape
  import opened LowerLevels
  import opened Switches
  import opened Tags
  import LowerStmts
  import Searches
  import Stackify
  import Structured

  // ----- what is asked of a switch -----

  /** The temporary is left alone: NEG uses it for itself. */
  predicate Quiet(e: Expr) {
    match e
    case Binary(_, a, b) => Quiet(a) && Quiet(b)
    case AndAlso(a, b) => Quiet(a) && Quiet(b)
    case OrElse(a, b) => Quiet(a) && Quiet(b)
    case Negate(_) => false
    case Invert(a) => Quiet(a)
    case _ => true
  }

  /** Names resolve, every case has a test, and tests leave the temporary alone. */
  predicate ArmScoped(a: Arm, names: Names, rc: nat) {
    && AllScoped(a.body, names + [{}], rc)
    && (a.Case? ==> a.tests != [] && forall i :: 0 <= i < |a.tests| ==> ExprScoped(a.tests[i], names) && Quiet(a.tests[i]))
  }

  predicate ArmsScoped(arms: seq<Arm>, names: Names, rc: nat) {
    forall i :: 0 <= i < |arms| ==> ArmScoped(arms[i], names, rc)
  }

  /** What the lemmas about an arm's shape ask for: n is the size of the frame. */
  ghost predicate ArmHere(a: Arm, endL: int, st: St, n: nat, rc: nat) {
    && AllInFragment(a.body) && ArmScoped(a, NamesOf(st.scopes), rc) && Slots(st.scopes, st.n) && st.scopes != []
    && LowerArm(a, endL, st).1.n <= n
  }

  ghost predicate ArmsHere(arms: seq<Arm>, endL: int, st: St, n: nat, rc: nat) {
    && ArmsInFragment(arms) && ArmsScoped(arms, NamesOf(st.scopes), rc) && Slots(st.scopes, st.n) && st.scopes != []
    && LowerArms(arms, endL, st).1.n <= n
  }

  /** The first arm and the rest. */
  lemma ArmsParts(arms: seq<Arm>, endL: int, st: St, n: nat, rc: nat)
    requires arms != [] && ArmsHere(arms, endL, st, n, rc)
    ensures var x := LowerArm(arms[0], endL, st);
      && ArmHere(arms[0], endL, st, n, rc) && ArmsHere(arms[1..], endL, x.1, n, rc)
      && st.l + 2 <= x.1.l <= LowerArms(arms[1..], endL, x.1).1.l
      && LowerArms(arms, endL, st) == (x.0 + LowerArms(arms[1..], endL, x.1).0, LowerArms(arms[1..], endL, x.1).1)
      && LowerStmts.Alike(x.1, st)
  {
    hide NamesOf, Slots, LowerArm, AllInFragment, ArmScoped;
    var x := LowerArm(arms[0], endL, st);
    ArmFollows(arms[0], endL, st);
    ArmsFollow(arms[1..], endL, x.1);
    FollowsSlots(st, x.1);
    assert ArmsScoped(arms[1..], NamesOf(x.1.scopes), rc);
  }

  lemma FollowsSlots(st: St, st': St)
    requires Follows(st, st')
    ensures Slots(st.scopes, st.n) ==> Slots(st'.scopes, st'.n)
    ensures st.n <= st'.n && st.l <= st'.l && st'.brks == st.brks && st'.conts == st.conts
  {
  }

  /** The body of an arm. */
  lemma ArmParts(a: Arm, endL: int, st: St, n: nat, rc: nat)
    requires ArmHere(a, endL, st, n, rc)
    ensures var st1, x := AtBody(a, st), LowerArm(a, endL, st);
      && ListHere(a.body, Push(st1), n, rc) && Push(st1).l == st1.l
      && LowerBlock(a.body, st1).0 == LowerAll(a.body, Push(st1)).0 && LowerAll(a.body, Push(st1)).1.l == x.1.l
      && st.l + 2 <= st1.l <= x.1.l && Slots(st.scopes, n) && st1.scopes == st.scopes
      && st1.brks == st.brks && st1.conts == st.conts
  {
    hide NamesOf, Slots, AllInFragment, AllScoped, LowerAll, LowerTests, ExprScoped;
    var st1 := AtBody(a, st);
    ArmFollows(a, endL, st);
    BlockIs(a.body, st1);
    NamesPush(st.scopes);
    PushSlots(st.scopes, st.n);
    FollowsSlots(st, LowerArm(a, endL, st).1);
    SlotsUp(st.scopes, st.n, n);
  }

  // ----- where jumps go -----

  lemma {:induction false} TestsLevel(es: seq<Expr>, bodyL: int, sc: Scopes, l: nat, r: seq<Item>, loop: LoopOf, n: nat)
    requires (forall i :: 0 <= i < |es| ==> ExprScoped(es[i], NamesOf(sc))) && Slots(sc, n)
    requires LevelOK(r, loop) && bodyL in TopLabs(r) && StartsPlain(r)
    ensures LevelOK(LowerTests(es, bodyL, sc, l).0 + r, loop) && StartsPlain(LowerTests(es, bodyL, sc, l).0 + r)
    ensures bodyL in TopLabs(LowerTests(es, bodyL, sc, l).0 + r)
    decreases |es|
  {
    hide LevelOK, NamesOf, Slots, LowerExpr, TopLabs;
    if es == [] {
      assert [] + r == r;
    } else {
      var x := LowerExpr(es[0], sc, l);
      var y := LowerTests(es[1..], bodyL, sc, x.1);
      TestsLevel(es[1..], bodyL, sc, x.1, r, loop, n);
      TestLevel(es[0], bodyL, sc, l, y.0 + r, loop, n);
      TestRegroup(x.0, bodyL, y.0, r);
    }
  }

  lemma TestRegroup(x: seq<Item>, bodyL: int, y: seq<Item>, r: seq<Item>)
    ensures [Plain(Dup)] + (x + ([Plain(Bin(Eq)), GotoIf(bodyL)] + y)) + r
         == [Plain(Dup)] + (x + ([Plain(Bin(Eq))] + ([GotoIf(bodyL)] + (y + r))))
  {
  }

  lemma TestLevel(e: Expr, bodyL: int, sc: Scopes, l: nat, r: seq<Item>, loop: LoopOf, n: nat)
    requires ExprScoped(e, NamesOf(sc)) && Slots(sc, n) && LevelOK(r, loop) && bodyL in TopLabs(r)
    ensures var t := [Plain(Dup)] + (LowerExpr(e, sc, l).0 + ([Plain(Bin(Eq))] + ([GotoIf(bodyL)] + r)));
      LevelOK(t, loop) && StartsPlain(t) && bodyL in TopLabs(t)
  {
    var x := LowerExpr(e, sc, l);
    ExprShaped(e, sc, l, n);
    FollowOne(GotoIf(bodyL), r, loop);
    FollowOne(Plain(Bin(Eq)), [GotoIf(bodyL)] + r, loop);
    var s := [Plain(Bin(Eq))] + ([GotoIf(bodyL)] + r);
    FollowExpr(x.0, s, loop, l, x.1, n);
    FollowOne(Plain(Dup), x.0 + s, loop);
    TopAppend([GotoIf(bodyL)], r);
    TopAppend([Plain(Bin(Eq))], [GotoIf(bodyL)] + r);
    TopAppend(x.0, s);
    TopAppend([Plain(Dup)], x.0 + s);
  }

  /** The body of an arm, from its label to the jump to the end, where r follows. */
  lemma BodyLevel(a: Arm, endL: int, st: St, r: seq<Item>, loop: LoopOf, n: nat, rc: nat)
    requires ArmHere(a, endL, st, n, rc) && LevelOK(r, loop) && endL in TopLabs(r) && Loops(st, r, loop)
    ensures var t := [Lab(st.l)] + ([Plain(Inst.Drop)] + (LowerBlock(a.body, AtBody(a, st)).0 + ([Goto(endL)] + r)));
      LevelOK(t, loop) && st.l in TopLabs(t) && TopLabs(r) <= TopLabs(t)
  {
    hide LevelOK, NamesOf, Slots, LowerAll, ListHere, ArmHere;
    var st1 := AtBody(a, st);
    ArmParts(a, endL, st, n, rc);
    GotoLevel(endL, r, loop);
    var bb := LowerBlock(a.body, st1).0;
    AllLevel(a.body, Push(st1), [Goto(endL)] + r, loop, n, rc);
    var s := bb + ([Goto(endL)] + r);
    FollowOne(Plain(Inst.Drop), s, loop);
    LabLevel(st.l, [Plain(Inst.Drop)] + s, loop);
    TopAppend([Plain(Inst.Drop)], s);
    TopAppend(bb, [Goto(endL)] + r);
  }

  lemma ArmLevel(a: Arm, endL: int, st: St, r: seq<Item>, loop: LoopOf, n: nat, rc: nat)
    requires ArmHere(a, endL, st, n, rc) && LevelOK(r, loop) && endL in TopLabs(r) && Loops(st, r, loop)
    ensures LevelOK(LowerArm(a, endL, st).0 + r, loop)
  {
    hide LevelOK, NamesOf, Slots, TopLabs, LowerTests, LowerBlock, InScope, AllScoped, AllInFragment, StartsPlain;
    var st1 := AtBody(a, st);
    var bb := LowerBlock(a.body, st1).0;
    if a.Case? {
      var tt := LowerTests(a.tests, st.l, st.scopes, st.l + 2).0;
      LabLevel(st.l + 1, r, loop);
      BodyLevel(a, endL, st, [Lab(st.l + 1)] + r, loop, n, rc);
      var body := [Lab(st.l)] + ([Plain(Inst.Drop)] + (bb + ([Goto(endL)] + ([Lab(st.l + 1)] + r))));
      GotoLevel(st.l + 1, body, loop);
      StartsGoto(st.l + 1, body);
      ArmParts(a, endL, st, n, rc);
      TestsLevel(a.tests, st.l, st.scopes, st.l + 2, [Goto(st.l + 1)] + body, loop, n);
      CaseRegroup(tt, bb, st.l, endL, r);
    } else {
      BodyLevel(a, endL, st, r, loop, n, rc);
      DefaultRegroup(bb, st.l, endL, r);
    }
  }

  lemma StartsGoto(l: int, r: seq<Item>)
    ensures StartsPlain([Goto(l)] + r)
  {
  }

  lemma CaseRegroup(tt: seq<Item>, bb: seq<Item>, l: nat, endL: int, r: seq<Item>)
    ensures tt + ([Goto(l + 1), Lab(l), Plain(Inst.Drop)] + (bb + [Goto(endL), Lab(l + 1)])) + r
         == tt + ([Goto(l + 1)] + ([Lab(l)] + ([Plain(Inst.Drop)] + (bb + ([Goto(endL)] + ([Lab(l + 1)] + r))))))
  {
  }

  lemma DefaultRegroup(bb: seq<Item>, l: nat, endL: int, r: seq<Item>)
    ensures [Lab(l), Plain(Inst.Drop)] + (bb + [Goto(endL)]) + r
         == [Lab(l)] + ([Plain(Inst.Drop)] + (bb + ([Goto(endL)] + r)))
  {
  }

  lemma {:induction false} ArmsLevel(arms: seq<Arm>, endL: int, st: St, r: seq<Item>, loop: LoopOf, n: nat, rc: nat)
    requires ArmsHere(arms, endL, st, n, rc) && LevelOK(r, loop) && endL in TopLabs(r) && Loops(st, r, loop)
    ensures LevelOK(LowerArms(arms, endL, st).0 + r, loop)
    decreases |arms|
  {
    hide LevelOK, LowerArm, ArmHere, ArmsHere;
    if arms == [] {
      assert [] + r == r;
    } else {
      ArmsParts(arms, endL, st, n, rc);
      var x := LowerArm(arms[0], endL, st);
      var y := LowerArms(arms[1..], endL, x.1).0;
      ArmsLevel(arms[1..], endL, x.1, r, loop, n, rc);
      TopAppend(y, r);
      ArmLevel(arms[0], endL, st, y + r, loop, n, rc);
      assert x.0 + y + r == x.0 + (y + r);
    }
  }

  /** A constant in front of a label is how a short circuit ends; only a literal tag in front
      of a default could look like that. */
  predicate PlainTag(tag: Expr, arms: seq<Arm>) {
    arms != [] && arms[0].Default? ==> !tag.Lit? && !tag.BoolLit?
  }

  /** What the lemmas about a switch ask for. */
  ghost predicate SwitchHere(tag: Expr, arms: seq<Arm>, st: St, n: nat, rc: nat) {
    && ArmsInFragment(arms) && ExprScoped(tag, NamesOf(st.scopes)) && ArmsScoped(arms, NamesOf(st.scopes), rc)
    && Slots(st.scopes, st.n) && st.scopes != [] && LowerSwitch(tag, arms, st).1.n <= n && PlainTag(tag, arms)
  }

  /** The state after the tag. */
  function AfterTag(tag: Expr, st: St): St {
    Labelled(st, LowerExpr(tag, st.scopes, st.l + 1).1)
  }

  lemma SwitchParts(tag: Expr, arms: seq<Arm>, st: St, n: nat, rc: nat)
    requires SwitchHere(tag, arms, st, n, rc)
    ensures var st1, cc := AfterTag(tag, st), LowerExpr(tag, st.scopes, st.l + 1);
      && ArmsHere(arms, st.l, st1, n, rc) && st.l < cc.1 <= LowerSwitch(tag, arms, st).1.l
      && LowerSwitch(tag, arms, st) == (cc.0 + (LowerArms(arms, st.l, st1).0 + Switches.Tail(st.l)),
                                          LowerArms(arms, st.l, st1).1)
      && ExprShape(cc.0, st.l + 1, cc.1, n) && Slots(st.scopes, n)
    ensures LowerSwitch(tag, arms, st).1.scopes == st.scopes && Follows(st, LowerSwitch(tag, arms, st).1)
  {
    hide NamesOf, Slots, LowerExpr, LowerArms, ArmsInFragment, ArmsScoped, ExprShape, Follows, ExprScoped;
    ExprLabels(tag, st.scopes, st.l + 1);
    var st1 := AfterTag(tag, st);
    ArmsFollow(arms, st.l, st1);
    FollowsSlots(st1, LowerArms(arms, st.l, st1).1);
    SlotsUp(st.scopes, st.n, n);
    ExprShaped(tag, st.scopes, st.l + 1, n);
    FollowsLabel(st, st1.l);
    FollowsTrans(st, st1, LowerArms(arms, st.l, st1).1);
  }

  lemma TagLevel(tag: Expr, arms: seq<Arm>, st: St, s: seq<Item>, loop: LoopOf, n: nat, rc: nat)
    requires SwitchHere(tag, arms, st, n, rc) && StartsPlain(s)
    requires LevelOK(LowerArms(arms, st.l, AfterTag(tag, st)).0 + s, loop)
    ensures LevelOK(LowerExpr(tag, st.scopes, st.l + 1).0 + (LowerArms(arms, st.l, AfterTag(tag, st)).0 + s), loop)
  {
    hide LevelOK, NamesOf, Slots, ExprScoped, AllScoped;
    SwitchParts(tag, arms, st, n, rc);
    var cc, st1 := LowerExpr(tag, st.scopes, st.l + 1), AfterTag(tag, st);
    var r := LowerArms(arms, st.l, st1).0 + s;
    if arms == [] {
      assert [] + s == s;
    } else if arms[0].Case? {
      assert arms[0].tests != [] && r[0] == Plain(Dup);
    }
    if StartsPlain(r) {
      FollowExpr(cc.0, r, loop, st.l + 1, cc.1, n);
    } else {
      TagLast(tag, st.scopes, st.l + 1);
      LastLevel(cc.0, r, loop);
    }
  }

  lemma TagLast(e: Expr, sc: Scopes, l: nat)
    requires !e.Lit? && !e.BoolLit?
    ensures var x := LowerExpr(e, sc, l).0;
      x != [] && !IsConst(x[|x| - 1])
  {
  }

  lemma {:induction false} LastLevel(x: seq<Item>, r: seq<Item>, loop: LoopOf)
    requires RhsOK(x) && x != [] && !IsConst(x[|x| - 1]) && LevelOK(r, loop)
    ensures LevelOK(x + r, loop)
    decreases x
  {
    assert (x + r)[1..] == x[1..] + r;
    assert RhsItemOK(x[0]);
    if |x| > 1 {
      assert RhsItemOK(x[1]) && (x + r)[1] == x[1];
      LastLevel(x[1..], r, loop);
    } else {
      assert x[1..] + r == r;
    }
  }

  lemma SwitchLevel(tag: Expr, arms: seq<Arm>, st: St, r: seq<Item>, loop: LoopOf, n: nat, rc: nat)
    requires SwitchHere(tag, arms, st, n, rc) && LevelOK(r, loop) && Loops(st, r, loop)
    ensures LevelOK(LowerSwitch(tag, arms, st).0 + r, loop)
  {
    hide LevelOK, NamesOf, Slots, LowerExpr, LowerArms, ArmsHere, ExprShape, SwitchHere, TopLabs;
    var st1 := AfterTag(tag, st);
    var cc := LowerExpr(tag, st.scopes, st.l + 1);
    var aa := LowerArms(arms, st.l, st1).0;
    SwitchParts(tag, arms, st, n, rc);
    LabLevel(st.l, r, loop);
    FollowOne(Plain(Inst.Drop), [Lab(st.l)] + r, loop);
    var s := [Plain(Inst.Drop)] + ([Lab(st.l)] + r);
    TopAppend([Plain(Inst.Drop)], [Lab(st.l)] + r);
    ArmsLevel(arms, st.l, st1, s, loop, n, rc);
    TagLevel(tag, arms, st, s, loop, n, rc);
    assert cc.0 + (aa + Switches.Tail(st.l)) + r == cc.0 + (aa + s);
  }

  // ----- labels, operands, returns -----

  /** The slots used are below n, every return gives rc values, and the labels defined are distinct
      and lie in S. */
  ghost predicate Sound(items: seq<Item>, n: nat, rc: nat, S: set<int>) {
    && OperandsOK(items, n) && Arity(items, rc)
    && DistinctLabels(Flatten(items)) && CodeLabels(Flatten(items)) <= S
  }

  lemma SoundAppend(a: seq<Item>, b: seq<Item>, n: nat, rc: nat, S: set<int>, S': set<int>)
    requires Sound(a, n, rc, S) && Sound(b, n, rc, S') && S !! S'
    ensures Sound(a + b, n, rc, S + S')
  {
    OperandsAppend(a, b, n);
    ArityAppend(a, b, rc);
    FlattenAppend(a, b);
    Searches.LabelsAppend(Flatten(a), Flatten(b));
    DistinctAppend(Flatten(a), Flatten(b));
  }

  lemma SoundWider(a: seq<Item>, n: nat, rc: nat, S: set<int>, S': set<int>)
    requires Sound(a, n, rc, S) && S <= S'
    ensures Sound(a, n, rc, S')
  {
  }

  lemma SoundNone(n: nat, rc: nat)
    ensures Sound([], n, rc, {})
  {
  }

  lemma SoundOne(it: Item, n: nat, rc: nat)
    requires it.Lab? || IsGoto(it) || it == Plain(Dup) || it == Plain(Inst.Drop) || it == Plain(Bin(Eq))
    ensures Sound([it], n, rc, if it.Lab? then {it.l} else {})
  {
    FreshOne(it, if it.Lab? then it.l else 0, if it.Lab? then it.l + 1 else 0);
    assert [it][1..] == [];
  }

  lemma SoundExpr(e: Expr, sc: Scopes, l: nat, n: nat, rc: nat)
    requires ExprScoped(e, NamesOf(sc)) && Slots(sc, n)
    ensures Sound(LowerExpr(e, sc, l).0, n, rc, Range(l, LowerExpr(e, sc, l).1)) && LowerExpr(e, sc, l).1 >= l
  {
    ExprShaped(e, sc, l, n);
    ArityExpr(e, sc, l, n, rc);
    ExprLabels(e, sc, l);
  }

  /** Statements, and the labels they use. */
  lemma SoundStmts(ss: seq<Stmt>, st: St, n: nat, rc: nat)
    requires ListHere(ss, st, n, rc)
    ensures Sound(LowerAll(ss, st).0, n, rc, Range(st.l, LowerAll(ss, st).1.l))
  {
    hide LowerAll, ListHere, Range;
    AllClean(ss, st, n, rc);
    AllArity(ss, st, n, rc);
  }

  lemma RangeJoin(lo: int, mid: int, hi: int)
    requires lo <= mid <= hi
    ensures Range(lo, mid) !! Range(mid, hi) && Range(lo, mid) + Range(mid, hi) == Range(lo, hi)
  {
  }

  lemma {:induction false} TestsSound(es: seq<Expr>, bodyL: int, sc: Scopes, l: nat, n: nat, rc: nat)
    requires (forall i :: 0 <= i < |es| ==> ExprScoped(es[i], NamesOf(sc))) && Slots(sc, n)
    ensures Sound(LowerTests(es, bodyL, sc, l).0, n, rc, Range(l, LowerTests(es, bodyL, sc, l).1))
    decreases |es|
  {
    hide Sound, NamesOf, Slots, LowerExpr, Range;
    SoundNone(n, rc);
    if es == [] {
      SoundWider([], n, rc, {}, Range(l, l));
    } else {
      var x := LowerExpr(es[0], sc, l);
      var y := LowerTests(es[1..], bodyL, sc, x.1);
      TestsSound(es[1..], bodyL, sc, x.1, n, rc);
      TestsLabels(es[1..], bodyL, sc, x.1);
      SoundExpr(es[0], sc, l, n, rc);
      SoundOne(Plain(Dup), n, rc);
      SoundOne(Plain(Bin(Eq)), n, rc);
      SoundOne(GotoIf(bodyL), n, rc);
      RangeJoin(l, x.1, y.1);
      SoundAppend([Plain(Bin(Eq))], [GotoIf(bodyL)], n, rc, {}, {});
      assert [Plain(Bin(Eq))] + [GotoIf(bodyL)] == [Plain(Bin(Eq)), GotoIf(bodyL)];
      var s := [Plain(Bin(Eq)), GotoIf(bodyL)] + y.0;
      SoundAppend([Plain(Bin(Eq)), GotoIf(bodyL)], y.0, n, rc, {} + {}, Range(x.1, y.1));
      SoundAppend(x.0, s, n, rc, Range(l, x.1), {} + {} + Range(x.1, y.1));
      SoundAppend([Plain(Dup)], x.0 + s, n, rc, {}, Range(l, x.1) + ({} + {} + Range(x.1, y.1)));
      SoundWider([Plain(Dup)] + (x.0 + s), n, rc, {} + (Range(l, x.1) + ({} + {} + Range(x.1, y.1))), Range(l, y.1));
    }
  }

  /** The body of an arm with its label. */
  lemma BodySound(a: Arm, endL: int, st: St, n: nat, rc: nat)
    requires ArmHere(a, endL, st, n, rc)
    ensures var st1, hi := AtBody(a, st), LowerArm(a, endL, st).1.l;
      Sound([Lab(st.l)] + ([Plain(Inst.Drop)] + (LowerBlock(a.body, st1).0 + [Goto(endL)])), n, rc, {st.l} + Range(st1.l, hi))
  {
    hide Sound, NamesOf, Slots, LowerAll, ListHere, ArmHere, LowerArm;
    var st1, hi := AtBody(a, st), LowerArm(a, endL, st).1.l;
    ArmParts(a, endL, st, n, rc);
    SoundStmts(a.body, Push(st1), n, rc);
    var bb := LowerBlock(a.body, st1).0;
    SoundOne(Goto(endL), n, rc);
    SoundOne(Plain(Inst.Drop), n, rc);
    SoundOne(Lab(st.l), n, rc);
    SoundAppend(bb, [Goto(endL)], n, rc, Range(st1.l, hi), {});
    SoundAppend([Plain(Inst.Drop)], bb + [Goto(endL)], n, rc, {}, Range(st1.l, hi) + {});
    var s, S := [Plain(Inst.Drop)] + (bb + [Goto(endL)]), {} + (Range(st1.l, hi) + {});
    SoundAppend([Lab(st.l)], s, n, rc, {st.l}, S);
    SoundWider([Lab(st.l)] + s, n, rc, {st.l} + S, {st.l} + Range(st1.l, hi));
  }

  lemma ArmSound(a: Arm, endL: int, st: St, n: nat, rc: nat)
    requires ArmHere(a, endL, st, n, rc)
    ensures Sound(LowerArm(a, endL, st).0, n, rc, Range(st.l, LowerArm(a, endL, st).1.l))
  {
    hide Sound, NamesOf, Slots, LowerTests, LowerBlock, AllInFragment, AllScoped, InScope;
    var st1, hi := AtBody(a, st), LowerArm(a, endL, st).1.l;
    var bb := LowerBlock(a.body, st1).0;
    var body := [Lab(st.l)] + ([Plain(Inst.Drop)] + (bb + [Goto(endL)]));
    BodySound(a, endL, st, n, rc);
    ArmParts(a, endL, st, n, rc);
    if a.Case? {
      var tt := LowerTests(a.tests, st.l, st.scopes, st.l + 2).0;
      TestsSound(a.tests, st.l, st.scopes, st.l + 2, n, rc);
      SoundOne(Goto(st.l + 1), n, rc);
      SoundOne(Lab(st.l + 1), n, rc);
      SoundAppend(body, [Lab(st.l + 1)], n, rc, {st.l} + Range(st1.l, hi), {st.l + 1});
      var S := {st.l} + Range(st1.l, hi) + {st.l + 1};
      SoundAppend([Goto(st.l + 1)], body + [Lab(st.l + 1)], n, rc, {}, S);
      SoundAppend(tt, [Goto(st.l + 1)] + (body + [Lab(st.l + 1)]), n, rc, Range(st.l + 2, st1.l), {} + S);
      assert [Lab(st.l), Plain(Inst.Drop)] + (bb + [Goto(endL)]) == body;
      Switches.CaseRegroup(tt, bb, st.l, endL);
      SoundWider(LowerArm(a, endL, st).0, n, rc, Range(st.l + 2, st1.l) + ({} + S), Range(st.l, hi));
    } else {
      assert LowerArm(a, endL, st).0 == body;
      SoundWider(body, n, rc, {st.l} + Range(st1.l, hi), Range(st.l, hi));
    }
  }

  lemma {:induction false} ArmsSound(arms: seq<Arm>, endL: int, st: St, n: nat, rc: nat)
    requires ArmsHere(arms, endL, st, n, rc)
    ensures Sound(LowerArms(arms, endL, st).0, n, rc, Range(st.l, LowerArms(arms, endL, st).1.l))
    decreases |arms|
  {
    hide Sound, LowerArm, ArmHere, ArmsHere, Range;
    if arms == [] {
      SoundNone(n, rc);
      SoundWider([], n, rc, {}, Range(st.l, st.l));
    } else {
      ArmsParts(arms, endL, st, n, rc);
      var x := LowerArm(arms[0], endL, st);
      var y := LowerArms(arms[1..], endL, x.1);
      ArmSound(arms[0], endL, st, n, rc);
      ArmsSound(arms[1..], endL, x.1, n, rc);
      RangeJoin(st.l, x.1.l, y.1.l);
      SoundAppend(x.0, y.0, n, rc, Range(st.l, x.1.l), Range(x.1.l, y.1.l));
    }
  }

  lemma SwitchSound(tag: Expr, arms: seq<Arm>, st: St, n: nat, rc: nat)
    requires SwitchHere(tag, arms, st, n, rc)
    ensures Sound(LowerSwitch(tag, arms, st).0, n, rc, Range(st.l, LowerSwitch(tag, arms, st).1.l))
  {
    hide Sound, NamesOf, Slots, LowerExpr, LowerArms, ArmsHere, ExprShape, ArmsInFragment, ArmsScoped;
    SwitchParts(tag, arms, st, n, rc);
    var st1, cc := AfterTag(tag, st), LowerExpr(tag, st.scopes, st.l + 1);
    var aa := LowerArms(arms, st.l, st1);
    var hi := aa.1.l;
    SoundExpr(tag, st.scopes, st.l + 1, n, rc);
    ArmsSound(arms, st.l, st1, n, rc);
    ArmsGrow(arms, st.l, st1, n, rc);
    SoundOne(Plain(Inst.Drop), n, rc);
    SoundOne(Lab(st.l), n, rc);
    SoundAppend([Plain(Inst.Drop)], [Lab(st.l)], n, rc, {}, {st.l});
    assert [Plain(Inst.Drop)] + [Lab(st.l)] == Switches.Tail(st.l);
    SoundAppend(aa.0, Switches.Tail(st.l), n, rc, Range(cc.1, hi), {} + {st.l});
    SoundAppend(cc.0, aa.0 + Switches.Tail(st.l), n, rc, Range(st.l + 1, cc.1), Range(cc.1, hi) + ({} + {st.l}));
    SoundWider(LowerSwitch(tag, arms, st).0, n, rc, Range(st.l + 1, cc.1) + (Range(cc.1, hi) + ({} + {st.l})),
               Range(st.l, hi));
  }

  lemma ArmsGrow(arms: seq<Arm>, endL: int, st: St, n: nat, rc: nat)
    requires ArmsHere(arms, endL, st, n, rc)
    ensures st.l <= LowerArms(arms, endL, st).1.l
  {
    hide Slots, LowerArms;
    ArmsFollow(arms, endL, st);
  }

  // ----- jumps -----

  lemma {:induction false} JumpsAppend(a: seq<Item>, b: seq<Item>)
    ensures TopJumps(a + b) == TopJumps(a) + TopJumps(b)
  {
    if a == [] {
      assert a + b == b;
    } else {
      assert (a + b)[1..] == a[1..] + b;
      JumpsAppend(a[1..], b);
    }
  }

  lemma TopOne(it: Item)
    ensures TopJumps([it]) == (if IsGoto(it) then {it.l} else {}) && TopLabs([it]) == (if it.Lab? then {it.l} else {})
  {
    assert [it][1..] == [];
  }

  lemma {:induction false} RhsJumps(items: seq<Item>)
    requires RhsOK(items)
    ensures TopJumps(items) == {} && TopLabs(items) == {}
  {
    if items != [] {
      assert RhsItemOK(items[0]);
      RhsJumps(items[1..]);
    }
  }

  /** Jumps of a level that is in no loop stay in it. */
  lemma {:induction false} JumpsIn(items: seq<Item>)
    requires LevelOK(items, None)
    ensures TopJumps(items) <= TopLabs(items)
  {
    if items != [] {
      assert ItemOK(items[0], items[1..], None);
      JumpsIn(items[1..]);
    }
  }

  function LoopLabels(loop: LoopOf): set<int> {
    if loop.Some? then {loop.value.0, loop.value.1} else {}
  }

  /** The labels marked along a level are its own or those of the loop around it. */
  lemma {:induction false} MarksIn(items: seq<Item>, T: set<int>, f: Flow, loop: LoopOf)
    requires LevelOK(items, loop)
    ensures FlowAll(items, T, f).marked <= f.marked + CodeLabels(Flatten(items)) + LoopLabels(loop)
    decreases items, 1
  {
    hide LoopLabels, FlowItem, FlatItem, CodeLabels, ItemOK;
    if items != [] {
      var it, rest := items[0], items[1..];
      Searches.LabelsAppend(FlatItem(it), Flatten(rest));
      MarksItem(it, rest, T, f, loop);
      MarksIn(rest, T, FlowItem(it, T, f), loop);
    }
  }

  lemma {:induction false} MarksItem(it: Item, rest: seq<Item>, T: set<int>, f: Flow, loop: LoopOf)
    requires ItemOK(it, rest, loop)
    ensures FlowItem(it, T, f).marked
         <= f.marked + (CodeLabels(FlatItem(it)) + CodeLabels(Flatten(rest))) + LoopLabels(loop)
    decreases it, 0
  {
    hide CodeLabels, FlowAll, Flatten, LevelOK, RhsOK;
    if it.Loop? {
      var h, f', b := [Label(it.head)], Flatten(it.body), [Label(it.brk)];
      Searches.LabelsAppend(h + f', b);
      Searches.LabelsAppend(h, f');
      Searches.HasCodeLabel(h, 0);
      Searches.HasCodeLabel(b, 0);
      MarksIn(it.body, Targets(it.body), f, Some((it.head, it.brk)));
    } else if IsGoto(it) {
      Searches.TopInCode(rest);
    }
  }

  lemma {:induction false} TestsJumps(es: seq<Expr>, bodyL: int, sc: Scopes, l: nat, n: nat)
    requires (forall i :: 0 <= i < |es| ==> ExprScoped(es[i], NamesOf(sc))) && Slots(sc, n)
    ensures TopLabs(LowerTests(es, bodyL, sc, l).0) == {}
    ensures TopJumps(LowerTests(es, bodyL, sc, l).0) == if es == [] then {} else {bodyL}
    decreases |es|
  {
    hide NamesOf, Slots, LowerExpr;
    if es != [] {
      var x := LowerExpr(es[0], sc, l);
      var y := LowerTests(es[1..], bodyL, sc, x.1).0;
      TestsJumps(es[1..], bodyL, sc, x.1, n);
      ExprShaped(es[0], sc, l, n);
      RhsJumps(x.0);
      TopTest(x.0, y, bodyL);
    }
  }

  lemma TopTest(x: seq<Item>, y: seq<Item>, bodyL: int)
    ensures var s := [Plain(Dup)] + (x + ([Plain(Bin(Eq)), GotoIf(bodyL)] + y));
      TopJumps(s) == TopJumps(x) + {bodyL} + TopJumps(y) && TopLabs(s) == TopLabs(x) + TopLabs(y)
  {
    hide TopJumps, TopLabs;
    var b := [Plain(Bin(Eq)), GotoIf(bodyL)];
    TopOne(Plain(Dup));
    TopOne(Plain(Bin(Eq)));
    TopOne(GotoIf(bodyL));
    assert b == [Plain(Bin(Eq))] + [GotoIf(bodyL)];
    JumpsAppend([Plain(Bin(Eq))], [GotoIf(bodyL)]);
    TopAppend([Plain(Bin(Eq))], [GotoIf(bodyL)]);
    JumpsAppend(b, y);
    TopAppend(b, y);
    JumpsAppend(x, b + y);
    TopAppend(x, b + y);
    JumpsAppend([Plain(Dup)], x + (b + y));
    TopAppend([Plain(Dup)], x + (b + y));
  }

  /** The body of an arm is a level of its own when the switch is in no loop. */
  lemma BodyAlone(a: Arm, endL: int, st: St, n: nat, rc: nat)
    requires ArmHere(a, endL, st, n, rc) && st.brks == [] && st.conts == []
    ensures var bb, st1 := LowerBlock(a.body, AtBody(a, st)).0, AtBody(a, st);
      && LevelOK(bb, None) && Height(bb, 0) == 0
      && CodeLabels(Flatten(bb)) <= Range(st1.l, LowerArm(a, endL, st).1.l)
      && TopJumps(bb) <= TopLabs(bb) <= Range(st1.l, LowerArm(a, endL, st).1.l)
  {
    hide NamesOf, Slots, LowerAll, ListHere, ArmHere, LowerArm, LevelOK, Range, Height, Flatten, CodeLabels;
    var st1 := AtBody(a, st);
    ArmParts(a, endL, st, n, rc);
    var bb := LowerBlock(a.body, st1).0;
    NothingLevel();
    AllLevel(a.body, Push(st1), [], None, n, rc);
    assert bb + [] == bb;
    AllClean(a.body, Push(st1), n, rc);
    JumpsIn(bb);
    Searches.TopInCode(bb);
  }

  lemma NothingLevel()
    ensures LevelOK([], None)
  {
  }

  /** The labels of an arm that its own jumps name: those of its body and the next arm. */
  lemma ArmJumps(a: Arm, endL: int, st: St, n: nat, rc: nat)
    requires ArmHere(a, endL, st, n, rc) && st.brks == [] && st.conts == []
    ensures var x := LowerArm(a, endL, st);
      && TopJumps(x.0) <= {endL} + Range(if a.Default? then st.l + 1 else st.l, x.1.l)
      && (a.Case? ==> {st.l, st.l + 1} <= TopJumps(x.0) && {st.l, st.l + 1} <= TopLabs(x.0))
  {
    hide NamesOf, Slots, LowerBlock, LowerTests, LevelOK, TopJumps, TopLabs, AllScoped, InScope, AllInFragment, ExprScoped;
    var st1 := AtBody(a, st);
    var bb := LowerBlock(a.body, st1).0;
    BodyAlone(a, endL, st, n, rc);
    ArmParts(a, endL, st, n, rc);
    if a.Case? {
      var tt := LowerTests(a.tests, st.l, st.scopes, st.l + 2).0;
      TestsJumps(a.tests, st.l, st.scopes, st.l + 2, n);
      TopCase(tt, bb, st.l, endL);
    } else {
      TopDefault(bb, st.l, endL);
    }
  }

  lemma TopCase(tt: seq<Item>, bb: seq<Item>, l: nat, endL: int)
    ensures var s := tt + ([Goto(l + 1), Lab(l), Plain(Inst.Drop)] + (bb + [Goto(endL), Lab(l + 1)]));
      TopJumps(s) == TopJumps(tt) + {l + 1} + TopJumps(bb) + {endL} && TopLabs(s) == TopLabs(tt) + {l} + TopLabs(bb) + {l + 1}
  {
    hide TopJumps, TopLabs;
    var a, b := [Goto(l + 1), Lab(l), Plain(Inst.Drop)], [Goto(endL), Lab(l + 1)];
    TopThree(l, endL);
    JumpsAppend(bb, b);
    TopAppend(bb, b);
    JumpsAppend(a, bb + b);
    TopAppend(a, bb + b);
    JumpsAppend(tt, a + (bb + b));
    TopAppend(tt, a + (bb + b));
  }

  lemma TopThree(l: nat, endL: int)
    ensures TopJumps([Goto(l + 1), Lab(l), Plain(Inst.Drop)]) == {l + 1}
    ensures TopLabs([Goto(l + 1), Lab(l), Plain(Inst.Drop)]) == {l}
    ensures TopJumps([Goto(endL), Lab(l + 1)]) == {endL} && TopLabs([Goto(endL), Lab(l + 1)]) == {l + 1}
    ensures TopJumps([Lab(l), Plain(Inst.Drop)]) == {} && TopLabs([Lab(l), Plain(Inst.Drop)]) == {l}
    ensures TopJumps(Switches.Tail(endL)) == {} && TopLabs(Switches.Tail(endL)) == {endL}
  {
    hide TopJumps, TopLabs;
    TopOne(Goto(l + 1));
    TopOne(Lab(l));
    TopOne(Plain(Inst.Drop));
    TopOne(Goto(endL));
    TopOne(Lab(l + 1));
    TopOne(Lab(endL));
    var d := [Lab(l)] + [Plain(Inst.Drop)];
    assert d == [Lab(l), Plain(Inst.Drop)] && [Goto(l + 1)] + d == [Goto(l + 1), Lab(l), Plain(Inst.Drop)];
    assert [Goto(endL)] + [Lab(l + 1)] == [Goto(endL), Lab(l + 1)];
    assert [Plain(Inst.Drop)] + [Lab(endL)] == Switches.Tail(endL);
    JumpsAppend([Lab(l)], [Plain(Inst.Drop)]);
    TopAppend([Lab(l)], [Plain(Inst.Drop)]);
    JumpsAppend([Goto(l + 1)], d);
    TopAppend([Goto(l + 1)], d);
    JumpsAppend([Goto(endL)], [Lab(l + 1)]);
    TopAppend([Goto(endL)], [Lab(l + 1)]);
    JumpsAppend([Plain(Inst.Drop)], [Lab(endL)]);
    TopAppend([Plain(Inst.Drop)], [Lab(endL)]);
  }

  lemma TopDefault(bb: seq<Item>, l: nat, endL: int)
    ensures var s := [Lab(l), Plain(Inst.Drop)] + (bb + [Goto(endL)]);
      TopJumps(s) == TopJumps(bb) + {endL} && TopLabs(s) == {l} + TopLabs(bb)
  {
    hide TopJumps, TopLabs;
    TopThree(l, endL);
    TopOne(Goto(endL));
    JumpsAppend(bb, [Goto(endL)]);
    TopAppend(bb, [Goto(endL)]);
    JumpsAppend([Lab(l), Plain(Inst.Drop)], bb + [Goto(endL)]);
    TopAppend([Lab(l), Plain(Inst.Drop)], bb + [Goto(endL)]);
  }

  // ----- the labels that are reached with the tag -----

  function TagLabels(arms: seq<Arm>, endL: int, st: St): set<int> {
    if arms == [] then {}
    else (if arms[0].Case? then {st.l, st.l + 1} else {}) + TagLabels(arms[1..], endL, LowerArm(arms[0], endL, st).1)
  }

  /** The labels of the defaults: nothing jumps to them. */
  function DefaultLabels(arms: seq<Arm>, endL: int, st: St): set<int> {
    if arms == [] then {}
    else (if arms[0].Default? then {st.l} else {}) + DefaultLabels(arms[1..], endL, LowerArm(arms[0], endL, st).1)
  }

  lemma {:induction false} ArmsJumps(arms: seq<Arm>, endL: int, st: St, n: nat, rc: nat)
    requires ArmsHere(arms, endL, st, n, rc) && st.brks == [] && st.conts == [] && endL < st.l
    ensures var x, V := LowerArms(arms, endL, st), TagLabels(arms, endL, st);
      && TopJumps(x.0) <= {endL} + Range(st.l, x.1.l) && TopJumps(x.0) !! DefaultLabels(arms, endL, st)
      && V <= TopJumps(x.0) && V <= TopLabs(x.0)
      && V <= Range(st.l, x.1.l) && DefaultLabels(arms, endL, st) <= Range(st.l, x.1.l)
    decreases |arms|
  {
    hide LowerArm, ArmHere, ArmsHere, TopJumps, TopLabs;
    if arms == [] {
      NoJumps();
    } else {
      ArmsParts(arms, endL, st, n, rc);
      var x := LowerArm(arms[0], endL, st);
      var y := LowerArms(arms[1..], endL, x.1);
      ArmJumps(arms[0], endL, st, n, rc);
      ArmsJumps(arms[1..], endL, x.1, n, rc);
      JumpsAppend(x.0, y.0);
      TopAppend(x.0, y.0);
    }
  }

  lemma NoJumps()
    ensures TopJumps([]) == {} && TopLabs([]) == {}
  {
  }

  // ----- the operand stack and the temporary -----

  /** The tag is the only value on the stack, or nothing gets here. */
  predicate OnTag(t: Tally) {
    t == GONE || (t.h == 1 && !t.gone)
  }

  const KEPT := Tally(1, true, false)

  lemma OneTally(it: Item, r: seq<Item>, t: Tally, T: set<int>, V: set<int>)
    ensures TallyAll([it] + r, t, T, V) == TallyAll(r, TallyItem(it, r, t, T, V), T, V)
  {
    assert ([it] + r)[1..] == r;
  }

  /** A quiet expression above a tag that is in the temporary leaves it there. */
  lemma {:induction false} QuietTally(e: Expr, sc: Scopes, l: nat, r: seq<Item>, h: nat, T: set<int>, V: set<int>)
    requires Quiet(e) && h >= 1
    ensures TallyAll(LowerExpr(e, sc, l).0 + r, Tally(h, true, false), T, V) == TallyAll(r, Tally(h + 1, true, false), T, V)
    decreases e, 1
  {
    hide TallyAll;
    match e
    case Lit(n) => OneTally(Plain(ConstI64(n)), r, Tally(h, true, false), T, V);
    case BoolLit(b) => OneTally(Plain(ConstBool(FromBool(b))), r, Tally(h, true, false), T, V);
    case Var(x) => OneTally(Plain(LocalGet(Lookup(sc, x))), r, Tally(h, true, false), T, V);
    case Binary(op, a, b) =>
      var x := LowerExpr(a, sc, l);
      var y := LowerExpr(b, sc, x.1);
      var s := y.0 + ([Plain(Bin(op))] + r);
      QuietTally(a, sc, l, s, h, T, V);
      QuietTally(b, sc, x.1, [Plain(Bin(op))] + r, h + 1, T, V);
      OneTally(Plain(Bin(op)), r, Tally(h + 2, true, false), T, V);
      assert x.0 + (y.0 + [Plain(Bin(op))]) + r == x.0 + s;
    case AndAlso(a, b) =>
      var x := LowerExpr(a, sc, l + 2);
      QuietShort(e, a, b, sc, l, Short(false, l, l + 1, 0, LowerExpr(b, sc, x.1).0), r, h, T, V);
    case OrElse(a, b) =>
      var x := LowerExpr(a, sc, l + 2);
      QuietShort(e, a, b, sc, l, Short(true, l, l + 1, 1, LowerExpr(b, sc, x.1).0), r, h, T, V);
    case Invert(a) =>
      var x := LowerExpr(a, sc, l);
      QuietTally(a, sc, l, [Plain(Not)] + r, h, T, V);
      OneTally(Plain(Not), r, Tally(h + 1, true, false), T, V);
      assert x.0 + [Plain(Not)] + r == x.0 + ([Plain(Not)] + r);
  }

  lemma {:induction false} QuietShort(e: Expr, a: Expr, b: Expr, sc: Scopes, l: nat, it: Item, r: seq<Item>, h: nat,
                                      T: set<int>, V: set<int>)
    requires e == AndAlso(a, b) || e == OrElse(a, b)
    requires Quiet(a) && Quiet(b) && h >= 1
    requires it.Short? && it.rhs == LowerExpr(b, sc, LowerExpr(a, sc, l + 2).1).0
    ensures TallyAll(LowerExpr(a, sc, l + 2).0 + [it] + r, Tally(h, true, false), T, V)
         == TallyAll(r, Tally(h + 1, true, false), T, V)
    decreases e, 0
  {
    hide LowerExpr, Quiet;
    var x := LowerExpr(a, sc, l + 2);
    QuietTally(a, sc, l + 2, [it] + r, h, T, V);
    QuietTally(b, sc, x.1, [], h, {}, V);
    assert it.rhs + [] == it.rhs;
    OneTally(it, r, Tally(h + 1, true, false), T, V);
    assert x.0 + [it] + r == x.0 + ([it] + r);
  }

  /** Code that nothing gets to. */
  lemma {:induction false} GoneTally(items: seq<Item>, r: seq<Item>, T: set<int>, V: set<int>)
    requires RhsOK(items)
    ensures TallyAll(items + r, GONE, T, V) == TallyAll(r, GONE, T, V)
    decreases items
  {
    if items == [] {
      assert [] + r == r;
    } else {
      assert RhsItemOK(items[0]);
      assert (items + r)[1..] == items[1..] + r;
      GoneTally(items[1..], r, T, V);
    }
  }

  /** One test: the tag stays on the stack and is now in the temporary. */
  lemma TestTally(e: Expr, bodyL: int, sc: Scopes, l: nat, r: seq<Item>, t: Tally, n: nat, T: set<int>, V: set<int>)
    requires OnTag(t) && Quiet(e) && bodyL in V && ExprScoped(e, NamesOf(sc)) && Slots(sc, n)
    ensures TallyAll([Plain(Dup)] + (LowerExpr(e, sc, l).0 + ([Plain(Bin(Eq))] + ([GotoIf(bodyL)] + r))), t, T, V)
         == TallyAll(r, if t.gone then GONE else KEPT, T, V)
  {
    hide TallyAll, NamesOf, Slots, LowerExpr;
    var x := LowerExpr(e, sc, l).0;
    var s := [Plain(Bin(Eq))] + ([GotoIf(bodyL)] + r);
    OneTally(Plain(Dup), x + s, t, T, V);
    if t.gone {
      ExprShaped(e, sc, l, n);
      GoneTally(x, s, T, V);
      OneTally(Plain(Bin(Eq)), [GotoIf(bodyL)] + r, GONE, T, V);
      OneTally(GotoIf(bodyL), r, GONE, T, V);
    } else {
      QuietTally(e, sc, l, s, 2, T, V);
      OneTally(Plain(Bin(Eq)), [GotoIf(bodyL)] + r, Tally(3, true, false), T, V);
      OneTally(GotoIf(bodyL), r, Tally(2, true, false), T, V);
    }
  }

  lemma {:induction false} TestsTally(es: seq<Expr>, bodyL: int, sc: Scopes, l: nat, r: seq<Item>, t: Tally, n: nat,
                                      T: set<int>, V: set<int>)
    requires OnTag(t) && bodyL in V && Slots(sc, n)
    requires forall i :: 0 <= i < |es| ==> ExprScoped(es[i], NamesOf(sc)) && Quiet(es[i])
    ensures TallyAll(LowerTests(es, bodyL, sc, l).0 + r, t, T, V)
         == TallyAll(r, if es == [] || t.gone then t else KEPT, T, V)
    decreases |es|
  {
    hide TallyAll, NamesOf, Slots, LowerExpr;
    if es == [] {
      assert [] + r == r;
    } else {
      var x := LowerExpr(es[0], sc, l);
      var y := LowerTests(es[1..], bodyL, sc, x.1);
      TestTally(es[0], bodyL, sc, l, y.0 + r, t, n, T, V);
      TestRegroup(x.0, bodyL, y.0, r);
      TestsTally(es[1..], bodyL, sc, x.1, r, if t.gone then GONE else KEPT, n, T, V);
    }
  }

  /** What is left of the tag after a body: nothing gets past the jump to the end. */
  lemma BodyTally(a: Arm, endL: int, st: St, r: seq<Item>, t: Tally, n: nat, rc: nat, T: set<int>, V: set<int>)
    requires ArmHere(a, endL, st, n, rc) && st.brks == [] && st.conts == []
    requires OnTag(t) && endL !in V && V !! Range(AtBody(a, st).l, LowerArm(a, endL, st).1.l)
    ensures TallyAll([Plain(Inst.Drop)] + (LowerBlock(a.body, AtBody(a, st)).0 + ([Goto(endL)] + r)), t, T, V)
         == TallyAll(r, GONE, T, V)
  {
    hide TallyAll, NamesOf, Slots, LowerBlock, AllInFragment, ArmScoped, LevelOK, Range, Flatten, CodeLabels;
    var bb := LowerBlock(a.body, AtBody(a, st)).0;
    BodyAlone(a, endL, st, n, rc);
    OneTally(Plain(Inst.Drop), bb + ([Goto(endL)] + r), t, T, V);
    var t1 := if t.gone then GONE else EMPTY;
    var t2 := PlainTally(bb, [Goto(endL)] + r, 0, t1, T, V, None);
    OneTally(Goto(endL), r, t2, T, V);
  }

  /** A tag label is found with the tag on the stack and in the temporary. */
  lemma TagLabelTally(l: int, r: seq<Item>, T: set<int>, V: set<int>)
    requires l in V && l in T && Stackify.Reloads(Flatten(r))
    ensures TallyAll([Lab(l)] + r, GONE, T, V) == TallyAll(r, KEPT, T, V)
  {
    hide TallyAll;
    OneTally(Lab(l), r, GONE, T, V);
  }

  lemma DropReloads(r: seq<Item>)
    ensures Stackify.Reloads(Flatten([Plain(Inst.Drop)] + r))
  {
    assert ([Plain(Inst.Drop)] + r)[1..] == r;
  }

  /** The labels of an arm among V and T. */
  ghost predicate ArmTags(a: Arm, endL: int, st: St, T: set<int>, V: set<int>) {
    && endL !in V && V !! Range(st.l + 2, LowerArm(a, endL, st).1.l)
    && if a.Case? then {st.l, st.l + 1} <= V && {st.l, st.l + 1} <= T else st.l !in V && st.l !in T
  }

  lemma ArmTally(a: Arm, endL: int, st: St, r: seq<Item>, t: Tally, n: nat, rc: nat, T: set<int>, V: set<int>)
    requires ArmHere(a, endL, st, n, rc) && st.brks == [] && st.conts == []
    requires OnTag(t) && ArmTags(a, endL, st, T, V) && Stackify.Reloads(Flatten(r))
    ensures TallyAll(LowerArm(a, endL, st).0 + r, t, T, V) == TallyAll(r, if a.Case? then KEPT else GONE, T, V)
  {
    hide TallyAll, NamesOf, Slots, LowerBlock, LowerTests, AllInFragment, AllScoped, InScope, Flatten, ExprScoped;
    var bb := LowerBlock(a.body, AtBody(a, st)).0;
    ArmParts(a, endL, st, n, rc);
    if a.Case? {
      var tt := LowerTests(a.tests, st.l, st.scopes, st.l + 2).0;
      var r1 := [Lab(st.l + 1)] + r;
      var r2 := [Plain(Inst.Drop)] + (bb + ([Goto(endL)] + r1));
      CaseRegroup(tt, bb, st.l, endL, r);
      TestsTally(a.tests, st.l, st.scopes, st.l + 2, [Goto(st.l + 1)] + ([Lab(st.l)] + r2), t, n, T, V);
      OneTally(Goto(st.l + 1), [Lab(st.l)] + r2, if t.gone then t else KEPT, T, V);
      DropReloads(bb + ([Goto(endL)] + r1));
      TagLabelTally(st.l, r2, T, V);
      BodyTally(a, endL, st, r1, KEPT, n, rc, T, V);
      TagLabelTally(st.l + 1, r, T, V);
    } else {
      DefaultRegroup(bb, st.l, endL, r);
      OneTally(Lab(st.l), [Plain(Inst.Drop)] + (bb + ([Goto(endL)] + r)), t, T, V);
      BodyTally(a, endL, st, r, t, n, rc, T, V);
    }
  }

  /** What follows a case's last label works on the tag: it duplicates or drops it. */
  lemma ArmsReload(arms: seq<Arm>, endL: int, st: St, r: seq<Item>)
    requires forall i :: 0 <= i < |arms| && arms[i].Case? ==> arms[i].tests != []
    ensures Stackify.Reloads(Flatten(LowerArms(arms, endL, st).0 + (Switches.Tail(endL) + r)))
  {
    hide Flatten, LowerArms, LowerArm, Stackify.Reloads;
    var s := Switches.Tail(endL) + r;
    ArmsFront(arms, endL, st);
    if arms == [] {
      assert [] + s == [Plain(Inst.Drop)] + ([Lab(endL)] + r);
      DropReloads([Lab(endL)] + r);
    } else {
      var x := LowerArm(arms[0], endL, st).0;
      var y := LowerArms(arms[1..], endL, LowerArm(arms[0], endL, st).1).0;
      assert x + y + s == x + (y + s);
      ArmReloads(arms[0], endL, st, y + s);
    }
  }

  lemma ArmReloads(a: Arm, endL: int, st: St, r: seq<Item>)
    requires a.Case? ==> a.tests != []
    ensures Stackify.Reloads(Flatten(LowerArm(a, endL, st).0 + r))
  {
    hide Flatten, LowerBlock, LowerTests, Stackify.Reloads;
    var x := LowerArm(a, endL, st).0;
    if a.Case? {
      var d := TestsFront(a.tests, st.l, st.scopes, st.l + 2);
      var tt := LowerTests(a.tests, st.l, st.scopes, st.l + 2).0;
      var y := x[|tt|..] + r;
      assert x + r == tt + y && tt + y == [Plain(Dup)] + (d + y);
      DupReloads(d + y);
    } else {
      var y := x[2..] + r;
      assert x + r == [Lab(st.l)] + ([Plain(Inst.Drop)] + y);
      DropReloads(y);
      LabReloads(st.l, [Plain(Inst.Drop)] + y);
    }
  }

  lemma ArmsFront(arms: seq<Arm>, endL: int, st: St)
    ensures LowerArms(arms, endL, st).0 == if arms == [] then [] else
              LowerArm(arms[0], endL, st).0 + LowerArms(arms[1..], endL, LowerArm(arms[0], endL, st).1).0
  {
    hide LowerArm;
  }

  lemma TestsFront(es: seq<Expr>, bodyL: int, sc: Scopes, l: nat) returns (rest: seq<Item>)
    requires es != []
    ensures LowerTests(es, bodyL, sc, l).0 == [Plain(Dup)] + rest
  {
    rest := LowerTests(es, bodyL, sc, l).0[1..];
  }

  lemma DupReloads(r: seq<Item>)
    ensures Stackify.Reloads(Flatten([Plain(Dup)] + r))
  {
    assert ([Plain(Dup)] + r)[1..] == r;
  }

  lemma LabReloads(l: int, r: seq<Item>)
    requires Stackify.Reloads(Flatten(r))
    ensures Stackify.Reloads(Flatten([Lab(l)] + r))
  {
    assert ([Lab(l)] + r)[1..] == r;
    ReloadsLabel(l, Flatten(r));
  }

  /** The labels of all arms among V and T. */
  ghost predicate ArmsTags(arms: seq<Arm>, endL: int, st: St, T: set<int>, V: set<int>) {
    && endL !in V && V * Range(st.l, LowerArms(arms, endL, st).1.l) == TagLabels(arms, endL, st)
    && TagLabels(arms, endL, st) <= T && DefaultLabels(arms, endL, st) !! T
  }

  lemma TagsParts(arms: seq<Arm>, endL: int, st: St, n: nat, rc: nat, T: set<int>, V: set<int>)
    requires arms != [] && ArmsHere(arms, endL, st, n, rc) && ArmsTags(arms, endL, st, T, V)
    requires st.brks == [] && st.conts == [] && endL < st.l
    ensures ArmTags(arms[0], endL, st, T, V) && ArmsTags(arms[1..], endL, LowerArm(arms[0], endL, st).1, T, V)
  {
    hide LowerArm, ArmsHere, ArmHere, TopJumps, TopLabs, Range;
    ArmsParts(arms, endL, st, n, rc);
    var x, rest := LowerArm(arms[0], endL, st).1, arms[1..];
    ArmsJumps(rest, endL, x, n, rc);
    var hi := LowerArms(rest, endL, x).1.l;
    SplitTags(V, TagLabels(arms, endL, st), TagLabels(rest, endL, x), arms[0].Case?, st.l, x.l, hi);
    SplitDefaults(DefaultLabels(arms, endL, st), T, arms[0].Default?, st.l);
  }

  lemma SplitTags(V: set<int>, S: set<int>, S': set<int>, isCase: bool, l: int, mid: int, hi: int)
    requires l + 2 <= mid <= hi && V * Range(l, hi) == S && S' <= Range(mid, hi)
    requires S == (if isCase then {l, l + 1} else {}) + S'
    ensures V !! Range(l + 2, mid) && V * Range(mid, hi) == S'
    ensures if isCase then {l, l + 1} <= V else l !in V
  {
    forall x | x in V
      ensures x !in Range(l + 2, mid) && (x in Range(mid, hi) <==> x in S')
    {
      assert x in Range(l, hi) <==> x in S;
    }
    forall x | x in S
      ensures x in V
    {
      assert x in V * Range(l, hi);
    }
    assert Between(l, l, hi);
    assert !isCase ==> l !in S;
  }

  lemma SplitDefaults(D: set<int>, T: set<int>, isDefault: bool, l: int)
    requires D !! T && (isDefault ==> l in D)
    ensures isDefault ==> l !in T
  {
  }

  lemma {:induction false} ArmsTally(arms: seq<Arm>, endL: int, st: St, r: seq<Item>, t: Tally, n: nat, rc: nat,
                                     T: set<int>, V: set<int>) returns (t': Tally)
    requires ArmsHere(arms, endL, st, n, rc) && st.brks == [] && st.conts == [] && endL < st.l
    requires OnTag(t) && ArmsTags(arms, endL, st, T, V)
    ensures TallyAll(LowerArms(arms, endL, st).0 + (Switches.Tail(endL) + r), t, T, V)
         == TallyAll(Switches.Tail(endL) + r, t', T, V)
    ensures OnTag(t')
    decreases |arms|
  {
    hide TallyAll, LowerArm, ArmHere, ArmsHere, ArmTags, ArmsTags, Stackify.Reloads, Flatten;
    var s := Switches.Tail(endL) + r;
    if arms == [] {
      assert [] + s == s;
      t' := t;
    } else {
      ArmsParts(arms, endL, st, n, rc);
      TagsParts(arms, endL, st, n, rc, T, V);
      var x := LowerArm(arms[0], endL, st);
      var y := LowerArms(arms[1..], endL, x.1).0;
      TestsThere(arms, st, n, rc, endL);
      ArmsReload(arms[1..], endL, x.1, r);
      ArmTally(arms[0], endL, st, y + s, t, n, rc, T, V);
      assert x.0 + y + s == x.0 + (y + s);
      t' := ArmsTally(arms[1..], endL, x.1, r, if arms[0].Case? then KEPT else GONE, n, rc, T, V);
    }
  }

  lemma TestsThere(arms: seq<Arm>, st: St, n: nat, rc: nat, endL: int)
    requires ArmsHere(arms, endL, st, n, rc)
    ensures forall i :: 0 <= i < |arms| && arms[i].Case? ==> arms[i].tests != []
  {
  }

  /** Through a whole switch: its labels are reached with the tag, and the stack is as high after
      it as before. */
  lemma SwitchTally(tag: Expr, arms: seq<Arm>, st: St, r: seq<Item>, t: Tally, n: nat, rc: nat, T: set<int>, V: set<int>)
    returns (t': Tally)
    requires SwitchHere(tag, arms, st, n, rc) && st.brks == [] && st.conts == [] && AtHeight(t, 0)
    requires ArmsTags(arms, st.l, AfterTag(tag, st), T, V) && V !! Range(st.l, AfterTag(tag, st).l)
    ensures TallyAll(LowerSwitch(tag, arms, st).0 + r, t, T, V) == TallyAll(r, t', T, V)
    ensures AtHeight(t', 0)
  {
    hide TallyAll, NamesOf, Slots, LowerExpr, LowerArms, ArmsHere, SwitchHere, ArmsTags, Range, Flatten, CodeLabels, LevelOK;
    var st1 := AfterTag(tag, st);
    var cc := LowerExpr(tag, st.scopes, st.l + 1);
    SwitchParts(tag, arms, st, n, rc);
    var s := Switches.Tail(st.l) + r;
    var aa := LowerArms(arms, st.l, st1).0;
    TagAlone(cc.0, st.l, cc.1, n, V);
    var t1 := PlainTally(cc.0, aa + s, 0, t, T, V, None);
    var t2 := ArmsTally(arms, st.l, st1, r, t1, n, rc, T, V);
    assert cc.0 + (aa + Switches.Tail(st.l)) + r == cc.0 + (aa + s);
    EndUntagged(arms, st.l, st1, T, V);
    t' := TailTally(st.l, r, t2, T, V);
  }

  lemma EndUntagged(arms: seq<Arm>, endL: int, st: St, T: set<int>, V: set<int>)
    requires ArmsTags(arms, endL, st, T, V)
    ensures endL !in V
  {
  }

  lemma TagAlone(x: seq<Item>, l: nat, hi: nat, n: nat, V: set<int>)
    requires ExprShape(x, l + 1, hi, n) && V !! Range(l, hi)
    ensures Untagged(x, V, None) && Height(x, 0) == 1 && RhsOK(x)
  {
    Structured.RhsLevel(x, {}, Flow(false, {}), 0);
    assert Height(x, 0) == 1;
    forall l' | l' in CodeLabels(Flatten(x))
      ensures l' in Range(l, hi)
    {
      assert Between(l, l', hi);
    }
  }

  /** The tag goes, and control from everywhere meets. */
  lemma TailTally(endL: int, r: seq<Item>, t: Tally, T: set<int>, V: set<int>) returns (t': Tally)
    requires OnTag(t) && endL !in V
    ensures TallyAll(Switches.Tail(endL) + r, t, T, V) == TallyAll(r, t', T, V)
    ensures AtHeight(t', 0)
  {
    hide TallyAll;
    assert Switches.Tail(endL) + r == [Plain(Inst.Drop)] + ([Lab(endL)] + r);
    var t1 := if t.gone then GONE else EMPTY;
    OneTally(Plain(Inst.Drop), [Lab(endL)] + r, t, T, V);
    OneTally(Lab(endL), r, t1, T, V);
    t' := TallyItem(Lab(endL), r, t1, T, V);
  }
}
