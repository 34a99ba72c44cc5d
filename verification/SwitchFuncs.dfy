/** Functions with a switch: statements, a switch, statements. Their code computes what the
    language asks for, on every machine and as WebAssembly. */
module SwitchFuncs {
  import opened Ir
  import opened Shape
  import opened Ast
  import opened Lower
  import opened Lowered
  import opened LowerCorrect
  import opened LowerStmts
  import opened LowerShape
  import opened LowerLevels
  import opened Switches
  import opened SwitchShape
  import opened Tags
  import opened Wasm
  import LowerEnds
  import LowerFuncs
  import Literals
  import Searches
  import StackifyCorrect

  function InfoOf(f: SwitchFunc, l: nat): FuncInfo {
    FuncInfo(|f.params|, SlotsOf(f, l), f.results)
  }

  // ----- meaning -----

  function Finish(o: Outcome): Outcome {
    match o
    case Normal(_) => Returned([])
    case Broke(_) => Stuck
    case Continued(_) => Stuck
    case _ => o
  }

  /** A call: the switch does what the language asks for. */
  function Call(m: Machine, f: SwitchFunc, args: seq<Value>, fuel: nat): Outcome
    requires |args| == |f.params|
  {
    match ExecAll(m, f.before, [Bind(f.params, args)] + [map[]], fuel)
    case Normal(e) =>
      (match GoSwitch(m, f.tag, f.arms, e, fuel)
       case Normal(e') => Finish(ExecAll(m, f.after, e', fuel))
       case o => Finish(o))
    case o => Finish(o)
  }

  // ----- the fragment -----

  function NamesThrough(ss: seq<Stmt>, names: Names): Names {
    if ss == [] then names else NamesThrough(ss[1..], NamesAfter(ss[0], names))
  }

  /** Names resolve, the statements are in the fragment of functions without switch, no default
      stands in front of a case, no arm breaks, case expressions are free of negation, and a
      function with results ends in a terminating statement. */
  predicate Accepted(f: SwitchFunc) {
    var names0 := [set x | x in f.params] + [{}];
    var names := NamesThrough(f.before, names0);
    && AllInFragment(f.before) && AllScoped(f.before, names0, f.results)
    && ExprScoped(f.tag, names) && ArmsScoped(f.arms, names, f.results) && ArmsInFragment(f.arms)
    && Orderly(f.arms) && PlainTag(f.tag, f.arms)
    && AllInFragment(f.after) && AllScoped(f.after, names, f.results)
    && (f.results == 0 || LowerEnds.ListTerminating(f.after))
  }

  lemma {:induction false} NamesRun(ss: seq<Stmt>, st: St)
    requires AllInFragment(ss)
    ensures NamesOf(LowerAll(ss, st).1.scopes) == NamesThrough(ss, NamesOf(st.scopes))
  {
    if ss != [] {
      NamesFollow(ss[0], st);
      NamesRun(ss[1..], LowerStmt(ss[0], st).1);
    }
  }

  /** What holds where each of the three parts is lowered. */
  lemma PartsHere(f: SwitchFunc, l: nat)
    requires Accepted(f)
    ensures var st0, b, s, n, rc := AtStart(f, l), Before(f, l).1, Middle(f, l).1, SlotsOf(f, l), f.results;
      && ListHere(f.before, st0, n, rc) && SwitchHere(f.tag, f.arms, b, n, rc) && ListHere(f.after, s, n, rc)
      && l == st0.l <= b.l < AfterTag(f.tag, b).l <= s.l <= After(f, l).1.l && |f.params| <= n
      && b.brks == [] && b.conts == [] && s.brks == [] && s.conts == [] && st0.brks == [] && st0.conts == []
      && s.scopes == b.scopes && After(f, l).1.n == n
  {
    hide LowerAll, LowerSwitch, NamesOf, Slots, AllScoped, AllInFragment, ArmsScoped, ArmsInFragment, ExprScoped, Orderly,
      Follows;
    var st0, b := AtStart(f, l), Before(f, l).1;
    LowerFuncs.EntrySlots(Shell(f), l);
    NamesPush(Entry(Shell(f), l).scopes);
    PushSlots(Entry(Shell(f), l).scopes, |f.params|);
    NamesRun(f.before, st0);
    AllFollows(f.before, st0);
    FollowsSlots(st0, b);
    SwitchFollows(f.tag, f.arms, b);
    var s := Middle(f, l).1;
    FollowsSlots(b, s);
    AllFollows(f.after, s);
    FollowsSlots(s, After(f, l).1);
    FollowsThere(st0, b);
    FollowsThere(b, s);
  }

  lemma FollowsThere(st: St, st': St)
    requires Follows(st, st')
    ensures |st'.scopes| == |st.scopes|
  {
  }

  lemma SwitchFollows(tag: Expr, arms: seq<Arm>, st: St)
    requires ArmsInFragment(arms)
    ensures var s := LowerSwitch(tag, arms, st).1;
      Follows(st, s) && s.scopes == st.scopes && st.l < AfterTag(tag, st).l <= s.l
  {
    hide Follows, LowerArms, LowerExpr, ArmsInFragment;
    ExprLabels(tag, st.scopes, st.l + 1);
    var st1 := AfterTag(tag, st);
    FollowsLabel(st, st1.l);
    ArmsFollow(arms, st.l, st1);
    FollowsSlots(st1, LowerArms(arms, st.l, st1).1);
    FollowsTrans(st, st1, LowerArms(arms, st.l, st1).1);
  }

  // ----- the shape of the function -----

  /** The labels that are reached with the tag on the operand stack. */
  function TagsOf(f: SwitchFunc, l: nat): set<int> {
    TagLabels(f.arms, Before(f, l).1.l, AfterTag(f.tag, Before(f, l).1))
  }

  lemma ReturnLevel(f: SwitchFunc, l: nat)
    ensures var t := LastReturn(f, l);
      LevelOK(t, None) && Sound(t, SlotsOf(f, l), 0, {}) && TopJumps(t) == {} && (t == [] || t == [Plain(Inst.Return(0))])
  {
    hide BodyOf, SlotsOf, Sound;
    var it := Plain(Inst.Return(0));
    assert [it][1..] == [];
    SoundNone(SlotsOf(f, l), 0);
    SoundReturn(SlotsOf(f, l));
  }

  lemma SoundReturn(n: nat)
    ensures Sound([Plain(Inst.Return(0))], n, 0, {})
  {
    var it := Plain(Inst.Return(0));
    FreshOne(it, 0, 0);
    ArityOne(it, 0);
    assert [it][1..] == [];
  }

  lemma WholeLevel(f: SwitchFunc, l: nat)
    requires Accepted(f)
    ensures LevelOK(ItemsOf(f, l), None)
  {
    hide Before, Middle, After, LastReturn, LevelOK, ListHere, SwitchHere, Accepted, SlotsOf;
    Lowerings(f, l);
    PartsHere(f, l);
    ReturnLevel(f, l);
    var st0, b, s, n, rc := AtStart(f, l), Before(f, l), Middle(f, l), SlotsOf(f, l), f.results;
    var t := LastReturn(f, l);
    AllLevel(f.after, s.1, t, None, n, rc);
    SwitchLevel(f.tag, f.arms, b.1, After(f, l).0 + t, None, n, rc);
    AllLevel(f.before, st0, s.0 + (After(f, l).0 + t), None, n, rc);
  }

  lemma Lowerings(f: SwitchFunc, l: nat)
    ensures Before(f, l) == LowerAll(f.before, AtStart(f, l))
    ensures Middle(f, l) == LowerSwitch(f.tag, f.arms, Before(f, l).1)
    ensures After(f, l) == LowerAll(f.after, Middle(f, l).1)
  {
  }

  lemma WholeSound(f: SwitchFunc, l: nat)
    requires Accepted(f)
    ensures OperandsOK(ItemsOf(f, l), SlotsOf(f, l)) && DistinctLabels(Flatten(ItemsOf(f, l)))
    ensures Arity(BodyOf(f, l), f.results)
  {
    hide Before, Middle, After, LastReturn, Sound, ListHere, SwitchHere, Accepted, SlotsOf, Range;
    Lowerings(f, l);
    PartsHere(f, l);
    ReturnLevel(f, l);
    var st0, b, s, a, n, rc := AtStart(f, l), Before(f, l), Middle(f, l), After(f, l), SlotsOf(f, l), f.results;
    SoundStmts(f.before, st0, n, rc);
    SwitchSound(f.tag, f.arms, b.1, n, rc);
    SoundStmts(f.after, s.1, n, rc);
    RangeJoin(b.1.l, s.1.l, a.1.l);
    RangeJoin(st0.l, b.1.l, a.1.l);
    SoundAppend(s.0, a.0, n, rc, Range(b.1.l, s.1.l), Range(s.1.l, a.1.l));
    SoundAppend(b.0, s.0 + a.0, n, rc, Range(st0.l, b.1.l), Range(b.1.l, a.1.l));
    var body, t := BodyOf(f, l), LastReturn(f, l);
    AnyArity(body, t, n, rc, Range(st0.l, b.1.l) + Range(b.1.l, a.1.l));
    assert ItemsOf(f, l) == body + t;
  }

  lemma AnyArity(body: seq<Item>, t: seq<Item>, n: nat, rc: nat, S: set<int>)
    requires Sound(body, n, rc, S) && Sound(t, n, 0, {})
    ensures OperandsOK(body + t, n) && DistinctLabels(Flatten(body + t)) && Arity(body, rc)
  {
    OperandsAppend(body, t, n);
    FlattenAppend(body, t);
    DistinctAppend(Flatten(body), Flatten(t));
  }

  /** Statements between which control goes with an empty stack, in no loop. */
  lemma StmtsAlone(ss: seq<Stmt>, st: St, n: nat, rc: nat)
    requires ListHere(ss, st, n, rc) && st.brks == [] && st.conts == []
    ensures var x := LowerAll(ss, st);
      && LevelOK(x.0, None) && Height(x.0, 0) == 0 && CodeLabels(Flatten(x.0)) <= Range(st.l, x.1.l)
      && TopJumps(x.0) <= Range(st.l, x.1.l)
  {
    hide LowerAll, ListHere, LevelOK, Range, Height, CodeLabels, Flatten;
    var x := LowerAll(ss, st).0;
    NothingLevel();
    AllLevel(ss, st, [], None, n, rc);
    assert x + [] == x;
    AllClean(ss, st, n, rc);
    JumpsIn(x);
    Searches.TopInCode(x);
  }

  /** The labels of the switch among the targets of the function. */
  lemma WholeTags(f: SwitchFunc, l: nat)
    requires Accepted(f)
    ensures var b, V := Before(f, l).1, TagsOf(f, l);
      && ArmsTags(f.arms, b.l, AfterTag(f.tag, b), Targets(ItemsOf(f, l)), V)
      && V !! Range(l, AfterTag(f.tag, b).l) && V !! Range(Middle(f, l).1.l, After(f, l).1.l)
  {
    hide Before, Middle, After, LastReturn, ListHere, SwitchHere, Accepted, SlotsOf, LowerAll, LowerExpr, LowerArms, ArmsHere,
      ExprShape, TopJumps, TopLabs, Follows;
    Lowerings(f, l);
    PartsHere(f, l);
    ReturnLevel(f, l);
    var st0, b, s, a, n, rc := AtStart(f, l), Before(f, l), Middle(f, l), After(f, l), SlotsOf(f, l), f.results;
    var st1 := AfterTag(f.tag, b.1);
    StmtsAlone(f.before, st0, n, rc);
    StmtsAlone(f.after, s.1, n, rc);
    SwitchParts(f.tag, f.arms, b.1, n, rc);
    ArmsJumps(f.arms, b.1.l, st1, n, rc);
    var cc, aa, t := LowerExpr(f.tag, b.1.scopes, b.1.l + 1).0, LowerArms(f.arms, b.1.l, st1).0, LastReturn(f, l);
    TagJumps(cc, b.1.l + 1, st1.l, n);
    TopWhole(b.0, cc, aa, b.1.l, a.0, t);
    Inside(TagsOf(f, l), st1.l, s.1.l, l, a.1.l);
    Inside(DefaultLabels(f.arms, b.1.l, st1), st1.l, s.1.l, l, a.1.l);
    Outside(TagsOf(f, l), st1.l, s.1.l, b.1.l);
  }

  lemma TagJumps(x: seq<Item>, lo: nat, hi: nat, n: nat)
    requires ExprShape(x, lo, hi, n)
    ensures TopJumps(x) == {}
  {
    RhsJumps(x);
  }

  lemma TopWhole(b: seq<Item>, cc: seq<Item>, aa: seq<Item>, endL: int, a: seq<Item>, t: seq<Item>)
    ensures var items := b + (cc + (aa + Switches.Tail(endL)) + (a + t));
      && TopJumps(items) == TopJumps(b) + TopJumps(cc) + TopJumps(aa) + TopJumps(a) + TopJumps(t)
      && TopLabs(aa) <= TopLabs(items)
  {
    hide TopJumps, TopLabs;
    var e := Switches.Tail(endL);
    TopThree(0, endL);
    JumpsAppend(aa, e);
    TopAppend(aa, e);
    JumpsAppend(cc, aa + e);
    TopAppend(cc, aa + e);
    JumpsAppend(a, t);
    JumpsAppend(cc + (aa + e), a + t);
    TopAppend(cc + (aa + e), a + t);
    JumpsAppend(b, cc + (aa + e) + (a + t));
    TopAppend(b, cc + (aa + e) + (a + t));
  }

  /** Labels between mid and hi are neither before nor after. */
  lemma Inside(S: set<int>, mid: int, hi: int, lo: int, top: int)
    requires S <= Range(mid, hi)
    ensures S !! Range(lo, mid) && S !! Range(hi, top)
    ensures forall b :: b <= mid ==> S !! Range(lo, b)
  {
  }

  lemma Outside(S: set<int>, mid: int, hi: int, l: int)
    requires S <= Range(mid, hi) && l < mid
    ensures l !in S && S * Range(mid, hi) == S
  {
  }

  lemma WholeTally(f: SwitchFunc, l: nat)
    requires Accepted(f)
    ensures TallyAll(ItemsOf(f, l), EMPTY, Targets(ItemsOf(f, l)), TagsOf(f, l)).h >= 0
  {
    hide Before, Middle, After, LastReturn, ListHere, SwitchHere, Accepted, SlotsOf, LowerAll, Flatten, CodeLabels, LevelOK,
      Range, ArmsTags, Height, TallyAll, Targets;
    Lowerings(f, l);
    PartsHere(f, l);
    ReturnLevel(f, l);
    WholeTags(f, l);
    var st0, b, s, a, n, rc := AtStart(f, l), Before(f, l), Middle(f, l), After(f, l), SlotsOf(f, l), f.results;
    var T, V, t := Targets(ItemsOf(f, l)), TagsOf(f, l), LastReturn(f, l);
    StmtsAlone(f.before, st0, n, rc);
    StmtsAlone(f.after, s.1, n, rc);
    var st1 := AfterTag(f.tag, b.1);
    Apart(V, l, b.1.l, st1.l);
    var t1 := PlainTally(b.0, s.0 + (a.0 + t), 0, EMPTY, T, V, None);
    var t2 := SwitchTally(f.tag, f.arms, b.1, a.0 + t, t1, n, rc, T, V);
    var t3 := PlainTally(a.0, t, 0, t2, T, V, None);
    EndTally(t, t3, T, V);
  }

  lemma Apart(V: set<int>, lo: int, mid: int, hi: int)
    requires V !! Range(lo, hi) && lo <= mid <= hi
    ensures V !! Range(lo, mid) && V !! Range(mid, hi)
  {
    RangeJoin(lo, mid, hi);
  }

  lemma EndTally(t: seq<Item>, t3: Tally, T: set<int>, V: set<int>)
    requires t == [] || t == [Plain(Inst.Return(0))]
    requires AtHeight(t3, 0)
    ensures TallyAll(t, t3, T, V).h >= 0
  {
    assert t != [] ==> t[1..] == [];
  }

  /** A function with results does not get to the end of its code. */
  lemma WholeDies(f: SwitchFunc, l: nat)
    requires Accepted(f) && f.results != 0
    ensures FlowAll(BodyOf(f, l), Targets(ItemsOf(f, l)), StackifyCorrect.START).dead
  {
    hide Before, Middle, After, LastReturn, ListHere, SwitchHere, SlotsOf, LowerAll, Flatten, CodeLabels, LevelOK, Range,
      Targets, FlowAll, LowerEnds.ListTerminating, AllScoped, AllInFragment, Orderly, NamesThrough, Sound;
    Lowerings(f, l);
    PartsHere(f, l);
    var st0, b, s, a, n, rc := AtStart(f, l), Before(f, l), Middle(f, l), After(f, l), SlotsOf(f, l), f.results;
    var T := Targets(ItemsOf(f, l));
    StmtsAlone(f.before, st0, n, rc);
    NothingLevel();
    SwitchLevel(f.tag, f.arms, b.1, [], None, n, rc);
    assert s.0 + [] == s.0;
    SwitchSound(f.tag, f.arms, b.1, n, rc);
    SoundLabels(s.0, n, rc, Range(b.1.l, s.1.l));
    var f1 := FlowAll(b.0, T, StackifyCorrect.START);
    var f2 := FlowAll(s.0, T, f1);
    MarksIn(b.0, T, StackifyCorrect.START, None);
    MarksIn(s.0, T, f1, None);
    NewLabels(f2.marked, l, b.1.l, s.1.l, a.1.l);
    LowerEnds.AllDies(f.after, s.1, n, rc, T, f2);
    FlowAppend(s.0, a.0, T, f1);
    FlowAppend(b.0, s.0 + a.0, T, StackifyCorrect.START);
  }

  lemma SoundLabels(x: seq<Item>, n: nat, rc: nat, S: set<int>)
    requires Sound(x, n, rc, S)
    ensures CodeLabels(Flatten(x)) <= S
  {
  }

  lemma NewLabels(M: set<int>, lo: int, mid: int, hi: int, top: int)
    requires M <= Range(lo, mid) + Range(mid, hi) && lo <= mid <= hi
    ensures Range(hi, top) !! M
  {
  }

  /** The lowering of every accepted function with a switch is a body the stackifier handles, its
      tag labels included. */
  lemma LoweringIsTagged(f: SwitchFunc, l: nat)
    requires Accepted(f)
    ensures StackifyCorrect.TaggedBody(InfoOf(f, l), ItemsOf(f, l), TagsOf(f, l))
  {
    hide Before, Middle, After, LastReturn, Accepted, SlotsOf, Flatten, LevelOK, Targets, FlowAll, TallyAll, OperandsOK,
      DistinctLabels, TagsOf, Arity, ReturnsOK, BodyOf, ItemsOf;
    WholeLevel(f, l);
    WholeSound(f, l);
    WholeTally(f, l);
    ReturnLevel(f, l);
    if f.results != 0 {
      WholeDies(f, l);
    }
    BodySplit(f, l);
    ReturnsGood(BodyOf(f, l), LastReturn(f, l), Targets(ItemsOf(f, l)), f.results);
  }

  lemma BodySplit(f: SwitchFunc, l: nat)
    ensures ItemsOf(f, l) == BodyOf(f, l) + LastReturn(f, l)
  {
    hide Before, Middle, After, LastReturn;
  }

  lemma ReturnsGood(body: seq<Item>, tail: seq<Item>, T: set<int>, rc: nat)
    requires Arity(body, rc) && (tail == [] || tail == [Plain(Inst.Return(0))])
    requires rc != 0 ==> FlowAll(body, T, StackifyCorrect.START).dead
    ensures ReturnsOK(body + tail, T, StackifyCorrect.START, rc)
  {
    hide FlowAll;
    ArityReturns(body, T, StackifyCorrect.START, rc);
    ReturnsAppend(body, tail, T, StackifyCorrect.START, rc);
    assert tail != [] ==> tail[1..] == [];
  }

  // ----- constants -----

  predicate ArmBelow(a: Arm, lim: int) {
    Literals.AllBelow(a.body, lim) && (a.Case? ==> forall i :: 0 <= i < |a.tests| ==> Literals.Below(a.tests[i], lim))
  }

  /** Every literal is an int of the machine. */
  predicate LitsFit(m: Machine, f: SwitchFunc) {
    var lim := Modulus(m) / 2;
    && Literals.AllBelow(f.before, lim) && Literals.Below(f.tag, lim) && Literals.AllBelow(f.after, lim)
    && forall i :: 0 <= i < |f.arms| ==> ArmBelow(f.arms[i], lim)
  }

  lemma {:induction false} TestsConsts(es: seq<Expr>, bodyL: int, sc: Scopes, l: nat, lim: int)
    requires forall i :: 0 <= i < |es| ==> Literals.Below(es[i], lim)
    ensures Literals.ItemsBelow(LowerTests(es, bodyL, sc, l).0, lim)
    decreases |es|
  {
    hide Literals.ItemsBelow, LowerExpr;
    Literals.Nothing(lim);
    if es != [] {
      var x := LowerExpr(es[0], sc, l);
      var y := LowerTests(es[1..], bodyL, sc, x.1).0;
      Literals.ExprConsts(es[0], sc, l, lim);
      TestsConsts(es[1..], bodyL, sc, x.1, lim);
      Literals.One(Plain(Dup), lim);
      Literals.One(Plain(Bin(Eq)), lim);
      Literals.One(GotoIf(bodyL), lim);
      Literals.Joined([Plain(Bin(Eq))], [GotoIf(bodyL)], lim);
      assert [Plain(Bin(Eq))] + [GotoIf(bodyL)] == [Plain(Bin(Eq)), GotoIf(bodyL)];
      Literals.Joined([Plain(Bin(Eq)), GotoIf(bodyL)], y, lim);
      Literals.Joined(x.0, [Plain(Bin(Eq)), GotoIf(bodyL)] + y, lim);
      Literals.Joined([Plain(Dup)], x.0 + ([Plain(Bin(Eq)), GotoIf(bodyL)] + y), lim);
    }
  }

  lemma ArmConsts(a: Arm, endL: int, st: St, lim: int)
    requires ArmBelow(a, lim) && lim > 1
    ensures Literals.ItemsBelow(LowerArm(a, endL, st).0, lim)
  {
    hide Literals.ItemsBelow, LowerTests, LowerBlock, Literals.AllBelow, Literals.Below;
    var st1 := AtBody(a, st);
    var bb := LowerBlock(a.body, st1).0;
    BlockIs(a.body, st1);
    Literals.AllConsts(a.body, Push(st1), lim);
    Literals.One(Lab(st.l), lim);
    Literals.One(Plain(Inst.Drop), lim);
    Literals.One(Goto(endL), lim);
    Literals.Joined(bb, [Goto(endL)], lim);
    Literals.Joined([Plain(Inst.Drop)], bb + [Goto(endL)], lim);
    var body := [Lab(st.l)] + ([Plain(Inst.Drop)] + (bb + [Goto(endL)]));
    Literals.Joined([Lab(st.l)], [Plain(Inst.Drop)] + (bb + [Goto(endL)]), lim);
    assert [Lab(st.l), Plain(Inst.Drop)] + (bb + [Goto(endL)]) == body;
    if a.Case? {
      var tt := LowerTests(a.tests, st.l, st.scopes, st.l + 2).0;
      TestsConsts(a.tests, st.l, st.scopes, st.l + 2, lim);
      Literals.One(Lab(st.l + 1), lim);
      Literals.One(Goto(st.l + 1), lim);
      Literals.Joined(body, [Lab(st.l + 1)], lim);
      Literals.Joined([Goto(st.l + 1)], body + [Lab(st.l + 1)], lim);
      Literals.Joined(tt, [Goto(st.l + 1)] + (body + [Lab(st.l + 1)]), lim);
      Switches.CaseRegroup(tt, bb, st.l, endL);
    }
  }

  lemma {:induction false} ArmsConsts(arms: seq<Arm>, endL: int, st: St, lim: int)
    requires (forall i :: 0 <= i < |arms| ==> ArmBelow(arms[i], lim)) && lim > 1
    ensures Literals.ItemsBelow(LowerArms(arms, endL, st).0, lim)
    decreases |arms|
  {
    hide Literals.ItemsBelow, LowerArm, ArmBelow;
    Literals.Nothing(lim);
    if arms != [] {
      var x := LowerArm(arms[0], endL, st);
      ArmConsts(arms[0], endL, st, lim);
      ArmsConsts(arms[1..], endL, x.1, lim);
      Literals.Joined(x.0, LowerArms(arms[1..], endL, x.1).0, lim);
    }
  }

  lemma CodeConsts(m: Machine, f: SwitchFunc, l: nat)
    requires LitsFit(m, f)
    ensures ConstsBelow(Flatten(ItemsOf(f, l)), Modulus(m) / 2)
  {
    hide Literals.ItemsBelow, LowerAll, LowerArms, LowerExpr, ArmBelow, BodyOf, Flatten;
    var lim := Modulus(m) / 2;
    assert Literals.ItemsBelow(ItemsOf(f, l), lim) by {
      var b, s, a, t := Before(f, l), Middle(f, l), After(f, l), LastReturn(f, l);
      var st1 := AfterTag(f.tag, b.1);
      var aa := LowerArms(f.arms, b.1.l, st1).0;
      Literals.AllConsts(f.before, AtStart(f, l), lim);
      Literals.ExprConsts(f.tag, b.1.scopes, b.1.l + 1, lim);
      ArmsConsts(f.arms, b.1.l, st1, lim);
      Literals.AllConsts(f.after, s.1, lim);
      Literals.One(Plain(Inst.Drop), lim);
      Literals.One(Lab(b.1.l), lim);
      Literals.Joined([Plain(Inst.Drop)], [Lab(b.1.l)], lim);
      assert [Plain(Inst.Drop)] + [Lab(b.1.l)] == Switches.Tail(b.1.l);
      Literals.Joined(aa, Switches.Tail(b.1.l), lim);
      Literals.Joined(LowerExpr(f.tag, b.1.scopes, b.1.l + 1).0, aa + Switches.Tail(b.1.l), lim);
      Literals.Nothing(lim);
      Literals.One(Plain(Inst.Return(0)), lim);
      Literals.Joined(a.0, t, lim);
      Literals.Joined(s.0, a.0 + t, lim);
      Literals.Joined(b.0, s.0 + (a.0 + t), lim);
    }
    BelowIs(ItemsOf(f, l), lim);
  }

  lemma BelowIs(items: seq<Item>, lim: int)
    requires Literals.ItemsBelow(items, lim)
    ensures ConstsBelow(Flatten(items), lim)
  {
  }

  // ----- the code of a call does what the call does -----

  /** From c the machine ends as the call does, or is still busy when evaluation is out of fuel. */
  ghost predicate Simulates(m: Machine, code: seq<Inst>, c: Conf, o: Outcome, fuel: nat) {
    && (o.Returned? ==> Reach(m, code, c, Done(EncAll(m, o.vs))))
    && (o.Timeout? ==> Busy(m, code, c, fuel))
    && (o.Returned? || o.Timeout? || o.Stuck?)
  }

  lemma SimulatesLater(m: Machine, code: seq<Inst>, c: Conf, d: Conf, o: Outcome, fuel: nat)
    requires Reach(m, code, c, d) && Simulates(m, code, d, o, fuel)
    ensures Simulates(m, code, c, o, fuel)
  {
    hide Reach, Busy, EncAll;
    if o.Returned? {
      ReachTrans(m, code, c, d, Done(EncAll(m, o.vs)));
    } else if o.Timeout? {
      BusyLater(m, code, c, d, fuel);
    }
  }

  lemma LeftSimulates(m: Machine, code: seq<Inst>, c: Conf, o: Outcome, next: nat, st': St, st: St, size: nat, fuel: nat)
    requires !o.Normal?
    requires Ends(m, code, c, o, next, st', st, size, fuel) || ListEnds(m, code, c, o, next, st', st, size, fuel)
    ensures Simulates(m, code, c, Finish(o), fuel)
  {
    hide Reach, Busy, EncAll, Stands;
  }

  /** Control that reaches the end of the body returns nothing. */
  lemma FallsOff(m: Machine, f: SwitchFunc, l: nat, ls: seq<int>)
    ensures Reach(m, Flatten(ItemsOf(f, l)), Start(|Flatten(BodyOf(f, l))|, ls), Done([]))
  {
    hide BodyOf, ItemsOf;
    BodySplit(f, l);
    FlattenAppend(BodyOf(f, l), LastReturn(f, l));
    var it := Plain(Inst.Return(0));
    assert [it][1..] == [] && Flatten([it]) == [Inst.Return(0)];
    ReachStep(m, Flatten(ItemsOf(f, l)), Start(|Flatten(BodyOf(f, l))|, ls));
  }

  /** Where the parts stand. */
  lemma PartsAt(f: SwitchFunc, l: nat)
    ensures var code, b, s, a := Flatten(ItemsOf(f, l)), Before(f, l).0, Middle(f, l).0, After(f, l).0;
      && At(code, 0, Flatten(b)) && At(code, |Flatten(b)|, Flatten(s)) && At(code, |Flatten(b)| + |Flatten(s)|, Flatten(a))
      && |Flatten(BodyOf(f, l))| == |Flatten(b)| + |Flatten(s)| + |Flatten(a)|
  {
    hide Before, Middle, After, LastReturn, Flatten, At;
    var code, b, s, a, t := Flatten(ItemsOf(f, l)), Before(f, l).0, Middle(f, l).0, After(f, l).0, LastReturn(f, l);
    assert At(code, 0, Flatten(ItemsOf(f, l))) by { Whole(code); }
    ItemsSplit(code, 0, b, s + (a + t));
    ItemsSplit(code, |Flatten(b)|, s, a + t);
    ItemsSplit(code, |Flatten(b)| + |Flatten(s)|, a, t);
    FlattenAppend(b, s + a);
    FlattenAppend(s, a);
  }

  lemma Whole(code: seq<Inst>)
    ensures At(code, 0, code)
  {
  }

  /** The statements after the switch, to the end of the call. */
  lemma AfterSim(m: Machine, f: SwitchFunc, l: nat, env: Env, ls: seq<int>, fuel: nat)
    requires Accepted(f) && Rel(m, Middle(f, l).1.scopes, env, ls) && |ls| == SlotsOf(f, l)
    ensures Simulates(m, Flatten(ItemsOf(f, l)),
                      Start(|Flatten(Before(f, l).0)| + |Flatten(Middle(f, l).0)|, ls),
                      Finish(ExecAll(m, f.after, env, fuel)), fuel)
  {
    hide Before, Middle, After, LastReturn, Flatten, At, Rel, Slots, ExecAll, Ends, ListEnds, DistinctLabels, Reach, ItemsOf,
      BodyOf, SlotsOf, AllInFragment, AllScoped, SwitchHere, Orderly, ArmsScoped, NamesThrough, LowerAll;
    PartsHere(f, l);
    PartsAt(f, l);
    Lowerings(f, l);
    WholeSound(f, l);
    var code, p, s, a := Flatten(ItemsOf(f, l)), |Flatten(Before(f, l).0)| + |Flatten(Middle(f, l).0)|, Middle(f, l).1, After(f, l);
    var o := ExecAll(m, f.after, env, fuel);
    AllSim(m, f.after, s, code, p, env, ls, fuel);
    if o.Normal? {
      var ls' := NormalList(m, code, Start(p, ls), o, p + |Flatten(a.0)|, a.1, s, |ls|, fuel);
      FallsOff(m, f, l, ls');
      ReachTrans(m, code, Start(p, ls), Start(p + |Flatten(a.0)|, ls'), Done([]));
      assert EncAll(m, []) == [];
    } else {
      LeftSimulates(m, code, Start(p, ls), o, p + |Flatten(a.0)|, a.1, s, |ls|, fuel);
    }
  }

  lemma NormalList(m: Machine, code: seq<Inst>, c: Conf, o: Outcome, next: nat, st': St, st: St, size: nat, fuel: nat)
    returns (ls: seq<int>)
    requires o.Normal? && ListEnds(m, code, c, o, next, st', st, size, fuel)
    ensures Reach(m, code, c, Start(next, ls)) && |ls| == size && Rel(m, st'.scopes, o.env, ls)
  {
    ls := NormalAt(m, code, c, o, next, st', Pop(st), size, fuel);
  }

  /** The switch and what comes after it. */
  lemma MiddleSim(m: Machine, f: SwitchFunc, l: nat, env: Env, ls: seq<int>, fuel: nat)
    requires Accepted(f) && Rel(m, Before(f, l).1.scopes, env, ls) && |ls| == SlotsOf(f, l)
    ensures var o := GoSwitch(m, f.tag, f.arms, env, fuel);
      Simulates(m, Flatten(ItemsOf(f, l)), Start(|Flatten(Before(f, l).0)|, ls),
                if o.Normal? then Finish(ExecAll(m, f.after, o.env, fuel)) else Finish(o), fuel)
  {
    hide Before, Middle, After, LastReturn, Flatten, At, Rel, Slots, ExecAll, Ends, ListEnds, DistinctLabels, Reach, ItemsOf,
      BodyOf, SlotsOf, AllInFragment, AllScoped, ArmsScoped, NamesThrough, LowerAll, ExecSwitch, GoSwitch, LowerSwitch;
    PartsHere(f, l);
    PartsAt(f, l);
    Lowerings(f, l);
    WholeSound(f, l);
    var code, p, b, s := Flatten(ItemsOf(f, l)), |Flatten(Before(f, l).0)|, Before(f, l).1, Middle(f, l);
    SwitchSim(m, f.tag, f.arms, b, code, p, env, ls, fuel);
    OrderlySwitch(m, f.tag, f.arms, env, fuel);
    var o := GoSwitch(m, f.tag, f.arms, env, fuel);
    if o.Normal? {
      var ls' := NormalAt(m, code, Start(p, ls), o, p + |Flatten(s.0)|, s.1, b, |ls|, fuel);
      AfterSim(m, f, l, o.env, ls', fuel);
      SimulatesLater(m, code, Start(p, ls), Start(p + |Flatten(s.0)|, ls'), Finish(ExecAll(m, f.after, o.env, fuel)), fuel);
    } else {
      LeftSimulates(m, code, Start(p, ls), o, p + |Flatten(s.0)|, s.1, b, |ls|, fuel);
    }
  }

  /** One evaluation and the run of the code. */
  lemma CallSim(m: Machine, f: SwitchFunc, l: nat, args: seq<Value>, locals: seq<int>, fuel: nat)
    requires Accepted(f) && |args| == |f.params| && LowerFuncs.Passed(m, args, locals) && |locals| == SlotsOf(f, l)
    ensures Simulates(m, Flatten(ItemsOf(f, l)), Start(0, locals), Call(m, f, args, fuel), fuel)
  {
    hide Before, Middle, After, LastReturn, Flatten, At, Rel, Slots, ExecAll, Ends, ListEnds, DistinctLabels, Reach, ItemsOf,
      BodyOf, SlotsOf, AllInFragment, AllScoped, SwitchHere, Orderly, ArmsScoped, NamesThrough, LowerAll, GoSwitch, Simulates;
    PartsHere(f, l);
    PartsAt(f, l);
    Lowerings(f, l);
    WholeSound(f, l);
    LowerFuncs.EntryRel(m, Shell(f), l, args, locals);
    PushRel(m, Entry(Shell(f), l).scopes, [Bind(f.params, args)], locals);
    var code, st0, b := Flatten(ItemsOf(f, l)), AtStart(f, l), Before(f, l);
    var env := [Bind(f.params, args)] + [map[]];
    var o := ExecAll(m, f.before, env, fuel);
    AllSim(m, f.before, st0, code, 0, env, locals, fuel);
    if o.Normal? {
      var ls := NormalList(m, code, Start(0, locals), o, |Flatten(b.0)|, b.1, st0, |locals|, fuel);
      MiddleSim(m, f, l, o.env, ls, fuel);
      SimulatesLater(m, code, Start(0, locals), Start(|Flatten(b.0)|, ls), Call(m, f, args, fuel), fuel);
    } else {
      LeftSimulates(m, code, Start(0, locals), o, |Flatten(b.0)|, b.1, st0, |locals|, fuel);
    }
  }

  /** The call returns values whose machine words are r. */
  ghost predicate Evaluates(m: Machine, f: SwitchFunc, args: seq<Value>, r: seq<int>)
    requires |args| == |f.params|
  {
    exists fuel: nat :: LowerFuncs.Gives(m, Call(m, f, args, fuel), r)
  }

  /** Evaluation never meets an operation that a type checker would reject. */
  ghost predicate Safe(m: Machine, f: SwitchFunc, args: seq<Value>)
    requires |args| == |f.params|
  {
    forall fuel: nat :: !Call(m, f, args, fuel).Stuck?
  }

  /** The code of a function with a switch ends with r exactly when the call returns r, on each
      machine. */
  lemma SwitchPreserves(m: Machine, f: SwitchFunc, l: nat, args: seq<Value>, locals: seq<int>, r: seq<int>)
    requires Accepted(f) && |args| == |f.params| && LowerFuncs.Passed(m, args, locals) && |locals| == SlotsOf(f, l)
    requires Safe(m, f, args)
    ensures Evaluates(m, f, args, r) <==> LowerFuncs.Computes(m, Flatten(ItemsOf(f, l)), locals, r)
  {
    hide Run, Call, ItemsOf, Flatten, SlotsOf, Accepted;
    var code, c := Flatten(ItemsOf(f, l)), Start(0, locals);
    if fuel: nat :| LowerFuncs.Gives(m, Call(m, f, args, fuel), r) {
      CallSim(m, f, l, args, locals, fuel);
      var n: nat :| Run(m, code, c, n) == Done(EncAll(m, Call(m, f, args, fuel).vs));
      assert Run(m, code, Start(0, locals), n) == Done(r);
    }
    if n: nat :| Run(m, code, Start(0, locals), n) == Done(r) {
      CallSim(m, f, l, args, locals, n);
      var o := Call(m, f, args, n);
      assert !o.Timeout?;
      var k: nat :| Run(m, code, c, k) == Done(EncAll(m, o.vs));
      ResultUnique(m, code, c, n, k);
      assert LowerFuncs.Gives(m, o, r);
    }
  }

  lemma EndsReturning(f: SwitchFunc, l: nat)
    ensures EndsInReturn(Flatten(ItemsOf(f, l)))
  {
    hide BodyOf, ItemsOf;
    BodySplit(f, l);
    var a, b := BodyOf(f, l), LastReturn(f, l);
    FlattenAppend(a, b);
    if b == [] {
      assert a + b == a;
    } else {
      assert b[1..] == [];
    }
  }

  lemma WordConsts(f: SwitchFunc, l: nat)
    requires LitsFit(Vm32, f)
    ensures ConstsBelow(Flatten(ItemsOf(f, l)), TWO32)
  {
    hide Flatten, ItemsOf;
    CodeConsts(Vm32, f, l);
  }

  /** From a switch to WebAssembly: the tag survives every block the dispatch leaves. The compiled
      function returns r exactly when evaluation with 32-bit ints does, never traps, and gives
      its frame and its caller's memory back. */
  lemma SwitchCompiled(f: SwitchFunc, l: nat, args: seq<Value>, w: WState, r: seq<int>)
    requires Accepted(f) && |args| == |f.params| && f.results <= MAX_RESULTS && Safe(Vm32, f, args)
    requires LitsFit(Vm32, f) && forall i :: 0 <= i < |args| ==> Fits(Vm32, args[i])
    requires StackifyCorrect.Called(InfoOf(f, l), EncAll(Vm32, args), w)
    ensures var fi, code := InfoOf(f, l), StackifyCorrect.FuncCode(InfoOf(f, l), ItemsOf(f, l));
      && (Evaluates(Vm32, f, args, r) <==> StackifyCorrect.WasmGives(fi.rc, Code(code, [], w), r))
      && (forall n: nat :: WRun(fi.rc, Code(code, [], w), n) != Trapped)
      && (forall n: nat {:trigger WRun(fi.rc, Code(code, [], w), n)} ::
            WRun(fi.rc, Code(code, [], w), n).Finished? ==>
              StackifyCorrect.Back(fi, w, WRun(fi.rc, Code(code, [], w), n)))
  {
    hide Run, WRun, Call, ItemsOf, Flatten, SlotsOf, Accepted, StackifyCorrect.TaggedBody, Safe, EndsInReturn, ConstsBelow,
      StackifyCorrect.Back, LitsFit, TagsOf;
    var fi, items := InfoOf(f, l), ItemsOf(f, l);
    PartsHere(f, l);
    var locals := StackifyCorrect.EntryLocals(fi, EncAll(Vm32, args), w);
    assert locals[..|args|] == EncAll(Vm32, args);
    LoweringIsTagged(f, l);
    SwitchPreserves(Vm32, f, l, args, locals, r);
    WordConsts(f, l);
    EndsReturning(f, l);
    StackifyCorrect.FunctionPreserves(fi, items, TagsOf(f, l), EncAll(Vm32, args), w, r);
    LowerFuncs.SameRun(items, locals, r);
  }

  // ----- an instance: a table of constants -----

  /** A case for every entry: the value it is for, and what it returns. */
  function TableArms(cases: seq<(nat, nat)>): (r: seq<Arm>)
    ensures |r| == |cases|
  {
    seq(|cases|, i requires 0 <= i < |cases| => Case([Lit(cases[i].0)], [Stmt.Return([Lit(cases[i].1)])]))
  }

  /** func f(b, a int) int { switch a { case ...: return ... }; return other } */
  function TableFunc(cases: seq<(nat, nat)>, other: nat): SwitchFunc {
    SwitchFunc(["b", "a"], 1, [], Var("a"), TableArms(cases), [Stmt.Return([Lit(other)])])
  }

  /** What the table says about v. */
  function TableEntry(cases: seq<(nat, nat)>, other: nat, v: int): nat {
    if cases == [] then other else if cases[0].0 == v then cases[0].1 else TableEntry(cases[1..], other, v)
  }

  predicate InWord(cases: seq<(nat, nat)>, other: nat) {
    other < TWO32 / 2 && forall i :: 0 <= i < |cases| ==> cases[i].0 < TWO32 / 2 && cases[i].1 < TWO32 / 2
  }

  lemma {:induction false} EntryAt(cases: seq<(nat, nat)>, other: nat, v: int, k: nat)
    requires k <= |cases| && (k < |cases| ==> cases[k].0 == v) && forall i :: 0 <= i < k ==> cases[i].0 != v
    ensures TableEntry(cases, other, v) == if k < |cases| then cases[k].1 else other
    decreases k
  {
    if k > 0 {
      EntryAt(cases[1..], other, v, k - 1);
    }
  }

  lemma TableAccepted(cases: seq<(nat, nat)>, other: nat)
    requires InWord(cases, other)
    ensures Accepted(TableFunc(cases, other)) && LitsFit(Vm32, TableFunc(cases, other))
    ensures ConstantCases(Vm32, TableArms(cases))
  {
    var f := TableFunc(cases, other);
    var names := [set x | x in f.params] + [{}];
    assert "a" in f.params && "a" in names[0];
    assert InScope(names, "a");
    forall i | 0 <= i < |cases|
      ensures ArmScoped(f.arms[i], names, 1) && AllInFragment(f.arms[i].body) && !LowerEnds.AnyBreaks(f.arms[i].body)
      ensures f.arms[i].Case? && ArmBelow(f.arms[i], TWO32 / 2)
    {
      ReturnLit(cases[i].1, names);
    }
    ReturnLit(other, names);
  }

  lemma ReturnLit(n: nat, names: Names)
    requires n < TWO32 / 2
    ensures var ss := [Stmt.Return([Lit(n)])];
      && AllInFragment(ss) && AllScoped(ss, names, 1) && AllScoped(ss, names + [{}], 1) && !LowerEnds.AnyBreaks(ss)
      && Literals.AllBelow(ss, TWO32 / 2) && LowerEnds.ListTerminating(ss)
  {
    var ss := [Stmt.Return([Lit(n)])];
    assert ss[1..] == [] && AllInFragment(ss[1..]) && InFragment(ss[0]);
    assert Scoped(ss[0], names, 1) && Scoped(ss[0], names + [{}], 1);
  }

  lemma ReturnsLit(n: nat, env: Env, fuel: nat)
    requires n < TWO32 / 2
    ensures ExecAll(Vm32, [Stmt.Return([Lit(n)])], env, fuel) == Returned([IntV(n)])
  {
    assert [Lit(n)][1..] == [] && [IntV(n)] + [] == [IntV(n)];
    assert Value1(Vm32, Lit(n), env) == Some(IntV(n));
    assert Values(Vm32, [Lit(n)], env) == Some([IntV(n)]);
  }

  /** The arm that is taken. */
  lemma TableChoice(cases: seq<(nat, nat)>, other: nat, v: int, env: Env) returns (k: nat)
    requires InWord(cases, other)
    ensures Choice(Vm32, IntV(v), TableArms(cases), env) == Some(k) && k <= |cases|
    ensures TableEntry(cases, other, v) == if k < |cases| then cases[k].1 else other
  {
    var arms := TableArms(cases);
    TableAccepted(cases, other);
    FirstListed(Vm32, v, arms, env);
    k := FirstCase(Vm32, IntV(v), arms, env).value;
    forall i | 0 <= i < |cases|
      ensures Lists(arms[i], v) <==> cases[i].0 == v
    {
      assert Constant(arms[i].tests[0]) == Some(cases[i].0);
    }
    EntryAt(cases, other, v, k);
    NoDefault(cases);
  }

  lemma TableCall(cases: seq<(nat, nat)>, other: nat, b: int, v: int, fuel: nat)
    requires InWord(cases, other) && Fits(Vm32, IntV(v))
    ensures Call(Vm32, TableFunc(cases, other), [IntV(b), IntV(v)], fuel) == Returned([IntV(TableEntry(cases, other, v))])
  {
    hide ExecAll, Choice, InWord, TableEntry;
    var f, args := TableFunc(cases, other), [IntV(b), IntV(v)];
    var env := [Bind(f.params, args)] + [map[]];
    TableEnv(b, v);
    var k := TableChoice(cases, other, v, env);
    NothingDone(env, fuel);
    Small(cases, other, k);
    if k < |cases| {
      ReturnsLit(cases[k].1, env + [map[]], fuel);
    } else {
      ReturnsLit(other, env, fuel);
    }
  }

  lemma Small(cases: seq<(nat, nat)>, other: nat, k: nat)
    requires InWord(cases, other)
    ensures other < TWO32 / 2 && (k < |cases| ==> cases[k].1 < TWO32 / 2)
  {
  }

  lemma NothingDone(env: Env, fuel: nat)
    ensures ExecAll(Vm32, [], env, fuel) == Normal(env)
  {
  }

  lemma TableEnv(b: int, v: int)
    ensures Get([Bind(["b", "a"], [IntV(b), IntV(v)])] + [map[]], "a") == Some(IntV(v))
  {
    var e := [Bind(["b", "a"], [IntV(b), IntV(v)])] + [map[]];
    assert e[..1] == [Bind(["b", "a"], [IntV(b), IntV(v)])];
  }

  lemma {:induction false} NoDefault(cases: seq<(nat, nat)>)
    ensures DefaultAt(TableArms(cases)) == |cases|
  {
  }

  /** The WebAssembly function of a table returns what the table says about its second argument,
      however many cases are in front. */
  lemma TableCompiled(cases: seq<(nat, nat)>, other: nat, b: int, v: int, l: nat, w: WState)
    requires InWord(cases, other) && Fits(Vm32, IntV(b)) && Fits(Vm32, IntV(v))
    requires StackifyCorrect.Called(InfoOf(TableFunc(cases, other), l), [b % TWO32, v % TWO32], w)
    ensures var f := TableFunc(cases, other);
      StackifyCorrect.WasmGives(1, Code(StackifyCorrect.FuncCode(InfoOf(f, l), ItemsOf(f, l)), [], w),
                                [TableEntry(cases, other, v)])
  {
    hide ItemsOf, SlotsOf, Accepted, LitsFit, Call, Evaluates, TableEntry;
    var f, args := TableFunc(cases, other), [IntV(b), IntV(v)];
    var r := TableEntry(cases, other, v);
    TableAccepted(cases, other);
    assert EncAll(Vm32, args) == [b % TWO32, v % TWO32];
    forall fuel: nat
      ensures Call(Vm32, f, args, fuel) == Returned([IntV(r)])
    {
      TableCall(cases, other, b, v, fuel);
    }
    EntryWord(cases, other, v);
    assert EncAll(Vm32, [IntV(r)]) == [r];
    assert LowerFuncs.Gives(Vm32, Call(Vm32, f, args, 0), [r]);
    assert Evaluates(Vm32, f, args, [r]) by { Given(f, args, [r]); }
    SwitchCompiled(f, l, args, w, [r]);
  }

  lemma Given(f: SwitchFunc, args: seq<Value>, r: seq<int>)
    requires |args| == |f.params| && LowerFuncs.Gives(Vm32, Call(Vm32, f, args, 0), r)
    ensures Evaluates(Vm32, f, args, r)
  {
  }

  lemma {:induction false} EntryWord(cases: seq<(nat, nat)>, other: nat, v: int)
    requires InWord(cases, other)
    ensures TableEntry(cases, other, v) < TWO32 / 2
  {
    if cases != [] {
      EntryWord(cases[1..], other, v);
    }
  }

  // ----- where the tag is lost -----

  /** The emitted operations of one test of the tag: of the constant c, or of its negation. */
  function TestOps(fi: FuncInfo, c: nat, neg: bool): seq<WOp> {
    PlainCode(fi, Dup) + (PlainCode(fi, ConstI64(c)) + ((if neg then PlainCode(fi, Neg) else []) + PlainCode(fi, Bin(Eq))))
  }

  /** The word the case is for. */
  function CaseWord(c: nat, neg: bool): int {
    if neg then I32(0 - c) else c
  }

  /** The machine at the label of the next case. The test stands in the block of its body, which is in
      the block of that label; a DUP or DROP follows the label, so the code there begins with the
      temporary. */
  function AtNext(fi: FuncInfo, c: nat, neg: bool, s: WState): WConf {
    var next, body := OpenBlock([Op(LGet(fi.params))], [], 0), OpenBlock([], [], 0);
    WRun(fi.rc, Code(Ops(TestOps(fi, c, neg)) + [Op(BrIf(0)), Op(Br(1))], [next, body], s), |TestOps(fi, c, neg)| + 3)
  }

  /** Negation goes through the temporary. */
  lemma NegData(k: nat, c: nat, t: int, s: WState) returns (s': WState)
    requires s.stack == [t, t, c] && c < TWO32 / 2
    ensures DataAll([LSet(k), I32Const(0), LGet(k), I32Bin(ISub)], s) == Some(s')
    ensures s'.stack == [t, t, I32(0 - c)] && Read(s'.locals, k) == c
  {
    var s1 := s.(stack := [t, t], locals := s.locals[k := c]);
    var s2, s3 := s1.(stack := [t, t, 0]), s1.(stack := [t, t, 0, c]);
    assert [t, t, c][..2] == [t, t] && [t, t] + [0] == [t, t, 0] && [t, t, 0] + [c] == [t, t, 0, c];
    StackifyCorrect.FourOps(LSet(k), I32Const(0), LGet(k), I32Bin(ISub), s, s1, s2, s3);
    s' := s1.(stack := [t, t, I32(0 - c)]);
    assert [t, t, 0, c][..2] + [I32(0 - c)] == s'.stack;
  }

  lemma DupData(k: nat, c: nat, t: int, s: WState) returns (s': WState)
    requires s.stack == [t] && c < TWO32 / 2
    ensures DataAll([LTee(k), LGet(k), I32Const(c)], s) == Some(s')
    ensures s'.stack == [t, t, c] && Read(s'.locals, k) == t
  {
    var s1 := s.(locals := s.locals[k := t]);
    s' := s1.(stack := [t, t, c]);
    assert [t] + [t] == [t, t] && [t, t] + [c] == [t, t, c] && I32(c) == c;
    DataTwo(LTee(k), LGet(k), s, s1);
    var s2 := s1.(stack := [t, t]);
    DataAllAppend([LTee(k), LGet(k)], [I32Const(c)], s);
    assert [LTee(k), LGet(k)] + [I32Const(c)] == [LTee(k), LGet(k), I32Const(c)];
    DataOne(I32Const(c), s2);
  }

  lemma TestData(fi: FuncInfo, c: nat, neg: bool, t: int, s: WState) returns (s': WState)
    requires s.stack == [t] && c < TWO32 / 2
    ensures DataAll(TestOps(fi, c, neg), s) == Some(s')
    ensures s'.stack == [t, FromBool(I32S(t) == I32S(CaseWord(c, neg)))]
    ensures Read(s'.locals, fi.params) == if neg then c else t
  {
    hide DataAll, I32S;
    var k := fi.params;
    var a, n, e := [LTee(k), LGet(k), I32Const(c)], [LSet(k), I32Const(0), LGet(k), I32Bin(ISub)], [I32Bin(IEq)];
    var s1 := DupData(k, c, t, s);
    var s2 := s1;
    if neg {
      s2 := NegData(k, c, t, s1);
      DataAllAppend(n, e, s1);
      assert TestOps(fi, c, neg) == a + (n + e);
      DataAllAppend(a, n + e, s);
    } else {
      assert TestOps(fi, c, neg) == a + e;
      DataAllAppend(a, e, s);
    }
    DataOne(I32Bin(IEq), s2);
    s' := s2.(stack := [t, I32Val(IEq, t, CaseWord(c, neg))]);
    assert [t, t, CaseWord(c, neg)][..1] + [I32Val(IEq, t, CaseWord(c, neg))] == s'.stack;
  }

  /** After a failed test the next label finds on the operand stack what the temporary holds: the
      tag, or, if the case was negated, the constant. */
  lemma NextFinds(fi: FuncInfo, c: nat, neg: bool, t: int, s: WState)
    requires s.stack == [t] && c < TWO32 / 2 && I32S(t) != I32S(CaseWord(c, neg))
    ensures AtNext(fi, c, neg, s).Code? && AtNext(fi, c, neg, s).s.stack == [if neg then c else t]
  {
    hide DataAll, I32S, WRun, TestOps, CaseWord;
    var next, body := OpenBlock([Op(LGet(fi.params))], [], 0), OpenBlock([], [], 0);
    var n, tail := |TestOps(fi, c, neg)|, [Op(BrIf(0)), Op(Br(1))];
    var s1 := TestData(fi, c, neg, t, s);
    var start := Code(Ops(TestOps(fi, c, neg)) + tail, [next, body], s);
    WRunData(fi.rc, TestOps(fi, c, neg), tail, [next, body], s);
    WRunAdd(fi.rc, start, n, 3);
    ThreeSteps(fi, next, body, t, s1);
  }

  lemma ThreeSteps(fi: FuncInfo, next: OpenBlock, body: OpenBlock, t: int, s: WState)
    requires next == OpenBlock([Op(LGet(fi.params))], [], 0) && s.stack == [t, 0]
    ensures WRun(fi.rc, Code([Op(BrIf(0)), Op(Br(1))], [next, body], s), 3)
         == Code([], [], s.(stack := [Read(s.locals, fi.params)]))
  {
    var c0 := Code([Op(BrIf(0)), Op(Br(1))], [next, body], s);
    var s1 := s.(stack := [t]);
    assert [t, 0][..1] == [t] && [Op(BrIf(0)), Op(Br(1))][1..] == [Op(Br(1))];
    assert WStep(fi.rc, c0) == Code([Op(Br(1))], [next, body], s1);
    assert [t][..0] == [] && [next, body][..0] == [];
    var c2 := Code([Op(LGet(fi.params))], [], s.(stack := []));
    assert WStep(fi.rc, Code([Op(Br(1))], [next, body], s1)) == c2;
    assert [Op(LGet(fi.params))][1..] == [] && [] + [Read(s.locals, fi.params)] == [Read(s.locals, fi.params)];
    WRunOne(fi.rc, c2);
    assert WRun(fi.rc, c0, 3) == WRun(fi.rc, WStep(fi.rc, c0), 2) == WRun(fi.rc, c2, 1);
  }

  /** The next label finds every tag that failed a constant's test exactly when the constant is not
      negated: the code of a negation goes through the temporary that holds the tag. */
  lemma TagKeptExactly(fi: FuncInfo, c: nat, neg: bool, s: WState)
    requires c < TWO32 / 2
    ensures !neg <==> forall t {:trigger s.(stack := [t])} :: 0 <= t < TWO32 && t != CaseWord(c, neg) ==>
              AtNext(fi, c, neg, s.(stack := [t])).Code? && AtNext(fi, c, neg, s.(stack := [t])).s.stack == [t]
  {
    hide AtNext;
    forall t | 0 <= t < TWO32 && t != CaseWord(c, neg)
      ensures var e := AtNext(fi, c, neg, s.(stack := [t])); e.Code? && e.s.stack == [if neg then c else t]
    {
      NextFinds(fi, c, neg, t, s.(stack := [t]));
    }
    if neg {
      var t := if c == 0 then 1 else 0;
      assert 0 <= t < TWO32 && t != CaseWord(c, neg);
      NextFinds(fi, c, neg, t, s.(stack := [t]));
      assert AtNext(fi, c, neg, s.(stack := [t])).s.stack == [c];
    }
  }
}
