/** Labelled code and structured code run in step with each other. */
module Simulation {
  import opened Ir
  import opened Shape
  import opened Wasm
  import opened Structured
  import opened Tags
  import Stackify

  /** What surrounds the level being executed, innermost first. `rest` is what follows the
      construct in its own level, `f` the flow at its entry, `t` the tally at its end; `tags` are
      the labels of the whole function that are reached with a tag. */
  datatype Ctx =
    | Top(tags: set<int>)
    | InLoop(head: int, brk: int, body: seq<Item>, rest: seq<Item>, T: set<int>, f: Flow, outer: Ctx)
    | InShort(tgt: int, end: int, k: int, rest: seq<Item>, T: set<int>, f: Flow, t: Tally, outer: Ctx)

  function TagsOf(c: Ctx): set<int> {
    match c
    case Top(tags) => tags
    case InLoop(_, _, _, _, _, _, o) => TagsOf(o)
    case InShort(_, _, _, _, _, _, _, o) => TagsOf(o)
  }

  function LoopAround(c: Ctx): LoopOf {
    if c.InLoop? then Some((c.head, c.brk)) else None
  }

  /** The flat code after the end of the level. */
  function TailCode(c: Ctx): seq<Inst> {
    match c
    case Top(_) => []
    case InLoop(_, b, _, rest, _, _, o) => [Label(b)] + (Flatten(rest) + TailCode(o))
    case InShort(t, e, k, rest, _, _, _, o) =>
      [Jmp(e), Label(t), ConstBool(k), Label(e)] + (Flatten(rest) + TailCode(o))
  }

  function Stk(c: Ctx): seq<int> {
    match c
    case Top(_) => []
    case InLoop(h, b, _, rest, T, _, o) => Stk(o) + Open(rest, T) + [b, h]
    case InShort(_, _, _, rest, T, _, _, o) => Stk(o) + Open(rest, T) + [-1]
  }

  function BodyEnd(c: Ctx): Flow
    requires c.InLoop?
  {
    FlowAll(c.body, Targets(c.body), c.f)
  }

  function AfterLoop(c: Ctx): Flow
    requires c.InLoop?
  {
    Flow(BodyEnd(c).dead && c.brk !in BodyEnd(c).marked, BodyEnd(c).marked)
  }

  /** The open blocks around the level at run time. */
  function Labels(fi: FuncInfo, c: Ctx): seq<OpenBlock> {
    match c
    case Top(_) => []
    case InLoop(h, b, body, rest, T, f, o) =>
      var a := Dead(AfterLoop(c)) + Body(fi, rest, T, AfterLoop(c), Stk(o));
      var loop := LoopW(Wrap(fi, [], body, Targets(body), f, Stk(c)));
      Labels(fi, o) + Conts(fi, rest, T, AfterLoop(c), Stk(o))
      + [OpenBlock(a, a, 0), OpenBlock([loop], [], 0)]
    case InShort(_, _, _, rest, T, f, t, o) =>
      var a := Body(fi, rest, T, f, Stk(o));
      Labels(fi, o) + Conts(fi, rest, T, f, Stk(o)) + [OpenBlock(a, a, if t.h >= 1 then t.h - 1 else 0)]
  }

  ghost predicate IsTail(code: seq<Inst>, s: seq<Inst>) {
    |s| <= |code| && code[|code| - |s|..] == s
  }

  /** A place in the program: the rest of a level, its targets, the flow and the tally of the
      operand stack there, and what surrounds it. */
  datatype Place = Place(items: seq<Item>, T: set<int>, f: Flow, t: Tally, ctx: Ctx)

  /** The tally at the end of the level. */
  function TallyEnd(p: Place): Tally {
    TallyAll(p.items, p.t, p.T, TagsOf(p.ctx))
  }

  function FlatTail(p: Place): seq<Inst> {
    Flatten(p.items) + TailCode(p.ctx)
  }

  ghost predicate LevelFacts(fi: FuncInfo, code: seq<Inst>, p: Place) {
    && IsTail(code, FlatTail(p))
    && LevelOK(p.items, LoopAround(p.ctx))
    && Targets(p.items) <= p.T
    && p.t.h >= 0 && (p.t.gone ==> p.f.dead)
    && OperandsOK(p.items, fi.slots)
    && ReturnsOK(p.items, p.T, p.f, fi.rc)
    && match p.ctx
       case Top(_) => TallyEnd(p).h >= 0 && (EndsInReturn(code) ==> FlowAll(p.items, p.T, p.f).dead)
       case InLoop(_, _, _, _, _, _, _) =>
         && TallyEnd(p).h == 0
         && FlowAll(p.items, p.T, p.f) == BodyEnd(p.ctx)
         && |Flatten(p.items)| <= |Flatten(p.ctx.body)|
       case InShort(_, _, _, _, _, f, t, _) =>
         && t.h >= 1 && !t.gone && TallyEnd(p).h == t.h && (t.kept ==> TallyEnd(p).kept)
         && p.f == f && RhsOK(p.items)
  }

  ghost predicate CtxOK(fi: FuncInfo, code: seq<Inst>, c: Ctx)
    decreases c
  {
    match c
    case Top(_) => true
    case InLoop(h, b, body, rest, T, f, o) =>
      && h >= 0 && b >= 0 && !f.dead && h !in TagsOf(o) && b !in TagsOf(o)
      && body != [] && body[|body| - 1] == Goto(h)
      && IsTail(code, [Label(h)] + Flatten(body) + TailCode(c))
      && LevelFacts(fi, code, Place(body, Targets(body), f, EMPTY, c))
      && LevelFacts(fi, code, Place(rest, T, AfterLoop(c), EMPTY, o))
      && CtxOK(fi, code, o)
    case InShort(_, e, k, rest, T, f, t, o) =>
      && t.h >= 1
      && LevelFacts(fi, code, Place(rest, T, f, t, o))
      && CtxOK(fi, code, o)
  }

  /** The flat machine and the structured machine stand at the same live place. */
  ghost predicate Matched(fi: FuncInfo, o: WState, code: seq<Inst>, p: Place, c: Conf, w: WConf) {
    && LevelFacts(fi, code, p) && CtxOK(fi, code, p.ctx)
    && !p.f.dead
    && c.Running? && w.Code?
    && c.pc == |code| - |FlatTail(p)|
    && |c.s.stack| == p.t.h
    && SameState(fi, o, c.s, w.s) && (p.t.kept ==> TempHolds(fi, c.s, w.s))
    && w.cur == Body(fi, p.items, p.T, p.f, Stk(p.ctx))
    && w.labels == Labels(fi, p.ctx) + Conts(fi, p.items, p.T, p.f, Stk(p.ctx))
  }

  /** The place after the first item, whatever it does to the flow. */
  function Next(p: Place): Place
    requires p.items != []
  {
    Place(p.items[1..], p.T, FlowItem(p.items[0], p.T, p.f), TallyItem(p.items[0], p.items[1..], p.t, p.T, TagsOf(p.ctx)), p.ctx)
  }

  /** What follows fits, so the first item does. */
  lemma NextFits(fi: FuncInfo, code: seq<Inst>, p: Place)
    requires LevelFacts(fi, code, p) && p.items != []
    ensures Next(p).t.h >= 0 && TallyEnd(Next(p)) == TallyEnd(p)
  {
    TallyNegative(p.items[1..], Next(p).t, p.T, TagsOf(p.ctx));
  }

  lemma Advance(fi: FuncInfo, code: seq<Inst>, p: Place)
    requires LevelFacts(fi, code, p) && p.items != []
    ensures LevelFacts(fi, code, Next(p))
    ensures FlatTail(p) == FlatItem(p.items[0]) + FlatTail(Next(p))
    ensures code[|code| - |FlatTail(p)|] == FlatItem(p.items[0])[0]
  {
    AdvanceCode(code, p);
    AdvanceFacts(fi, code, p);
  }

  lemma AdvanceCode(code: seq<Inst>, p: Place)
    requires IsTail(code, FlatTail(p)) && p.items != []
    ensures IsTail(code, FlatTail(Next(p)))
    ensures FlatTail(p) == FlatItem(p.items[0]) + FlatTail(Next(p))
    ensures code[|code| - |FlatTail(p)|] == FlatItem(p.items[0])[0]
  {
    hide FlowItem, TallyItem, FlowAll;
    var a, b := FlatItem(p.items[0]), FlatTail(Next(p));
    assert FlatTail(p) == a + b;
    TailSplit(code, a, b);
  }

  lemma TailSplit(code: seq<Inst>, a: seq<Inst>, b: seq<Inst>)
    requires IsTail(code, a + b)
    ensures IsTail(code, b)
    ensures forall i :: 0 <= i < |a| ==> code[|code| - |a + b| + i] == a[i]
  {
    var at := |code| - |a + b|;
    assert code[at..][|a|..] == b;
    assert code[|code| - |b|..] == code[at..][|a|..];
    forall i | 0 <= i < |a|
      ensures code[at + i] == a[i]
    {
      assert code[at..][i] == (a + b)[i];
    }
  }

  lemma AdvanceFacts(fi: FuncInfo, code: seq<Inst>, p: Place)
    requires LevelFacts(fi, code, p) && p.items != []
    requires IsTail(code, FlatTail(Next(p)))
    ensures LevelFacts(fi, code, Next(p))
  {
    NextFits(fi, code, p);
    if p.ctx.InShort? {
      assert RhsItemOK(p.items[0]);
    }
  }

  // ----- moving on within a level -----

  function Stack(p: Place): seq<int> {
    Stk(p.ctx) + Open(p.items, p.T)
  }

  function Cur(fi: FuncInfo, p: Place): seq<W> {
    Body(fi, p.items, p.T, p.f, Stk(p.ctx))
  }

  function Blocks(fi: FuncInfo, p: Place): seq<OpenBlock> {
    Labels(fi, p.ctx) + Conts(fi, p.items, p.T, p.f, Stk(p.ctx))
  }

  function At(code: seq<Inst>, p: Place): int {
    |code| - |FlatTail(p)|
  }

  /** m steps of the flat machine and k steps of the structured one lead to q. */
  ghost predicate Moves(fi: FuncInfo, o: WState, code: seq<Inst>, p: Place, c: Conf, w: WConf, m: nat, k: nat, q: Place) {
    && m >= 1
    && (k >= 1 || |FlatTail(q)| < |FlatTail(p)|)
    && Matched(fi, o, code, q, Run(Vm32, code, c, m), WRun(fi.rc, w, k))
  }

  lemma RunOne(code: seq<Inst>, c: Conf)
    ensures Run(Vm32, code, c, 1) == Step(Vm32, code, c)
  {
    assert Run(Vm32, code, Step(Vm32, code, c), 0) == Step(Vm32, code, c);
  }

  /** Past an item that closes no block both machines stand at the next one. */
  lemma Fall(fi: FuncInfo, o: WState, code: seq<Inst>, p: Place, c: Conf, w: WConf)
    requires Matched(fi, o, code, p, c, w) && p.items != [] && !Closes(p.items[0], p.T)
    ensures LevelFacts(fi, code, Next(p))
    ensures At(code, Next(p)) == c.pc + |FlatItem(p.items[0])|
    ensures |FlatTail(Next(p))| < |FlatTail(p)|
    ensures w.cur == EmitItem(fi, p.items[0], p.f, Stack(p)) + Cur(fi, Next(p))
    ensures w.labels == Blocks(fi, Next(p))
    ensures c.pc < |code| && code[c.pc] == FlatItem(p.items[0])[0]
  {
    Advance(fi, code, p);
  }

  lemma PlainStep(fi: FuncInfo, o: WState, code: seq<Inst>, p: Place, c: Conf, w: WConf) returns (m: nat, k: nat, q: Place)
    requires Matched(fi, o, code, p, c, w) && p.items != [] && ConstsBelow(code, TWO32)
    requires p.items[0].Plain? && !p.items[0].op.Return?
    ensures Moves(fi, o, code, p, c, w, m, k, q)
  {
    hide Run, WRun, Apply, CanRun, PlainCode, DataAll, SameState, TempHolds, LevelFacts, CtxOK, FlowItem, TallyItem, Cur, Blocks,
      Body, Conts, EmitItem, Stack, FlatTail, ConstsBelow, Matched;
    var i := PlainAt(fi, o, code, p, c, w);
    q := Next(p);
    m := 1;
    var os := PlainCode(fi, i);
    k := |os|;
    PlainSim(fi, o, i, c.s, w.s);
    if q.t.kept {
      PlainTemp(fi, o, i, c.s, w.s);
    }
    PlainRun(code, c, i);
    WRunData(fi.rc, os, Cur(fi, q), w.labels, w.s);
    MatchedAt(fi, o, code, q, Running(c.pc + 1, Apply(Vm32, i, c.s)), Code(Cur(fi, q), Blocks(fi, q), DataAll(os, w.s).value));
  }

  /** All that the two machines see at a live instruction. */
  lemma PlainAt(fi: FuncInfo, o: WState, code: seq<Inst>, p: Place, c: Conf, w: WConf) returns (i: Inst)
    requires Matched(fi, o, code, p, c, w) && p.items != [] && ConstsBelow(code, TWO32)
    requires p.items[0].Plain? && !p.items[0].op.Return?
    ensures c.Running? && w.Code? && c.pc < |code| && code[c.pc] == i && CanRun(i, c.s) && SameState(fi, o, c.s, w.s)
    ensures i.ConstI64? ==> 0 <= i.val < TWO32
    ensures w.cur == Ops(PlainCode(fi, i)) + Cur(fi, Next(p)) && w.labels == Blocks(fi, Next(p))
    ensures var q := Next(p);
      && LevelFacts(fi, code, q) && CtxOK(fi, code, q.ctx) && !q.f.dead && At(code, q) == c.pc + 1
      && |FlatTail(q)| < |FlatTail(p)| && q.t.h == |c.s.stack| - Pops(i) + Pushes(i)
      && (q.t.kept ==> if i.Dup? then |c.s.stack| == 1
                       else TempHolds(fi, c.s, w.s) && |c.s.stack| > Pops(i) && !i.LocalSet? && !i.Neg?)
  {
    i := p.items[0].op;
    hide WRun, Run, PlainCode, DataAll, Cur, Blocks, TempHolds;
    Fall(fi, o, code, p, c, w);
    PlainFits(fi, code, p);
  }

  lemma PlainRun(code: seq<Inst>, c: Conf, i: Inst)
    requires c.Running? && c.pc < |code| && code[c.pc] == i && CanRun(i, c.s)
    ensures Run(Vm32, code, c, 1) == Running(c.pc + 1, Apply(Vm32, i, c.s))
  {
    hide Apply;
    RunOne(code, c);
  }

  /** A plain instruction that is reached finds its operands. */
  lemma PlainFits(fi: FuncInfo, code: seq<Inst>, p: Place)
    requires LevelFacts(fi, code, p) && !p.f.dead && p.items != [] && p.items[0].Plain?
    ensures var i := p.items[0].op;
      && (!IsControl(i) || i.Return?)
      && p.t.h >= Pops(i)
      && (i.Return? ==> p.t.h == i.n)
      && (!i.Return? ==> Next(p).t == Tally(p.t.h - Pops(i) + Pushes(i), Keeps(i, p.t), false))
      && (i.LocalGet? || i.LocalSet? ==> 0 <= i.idx < fi.slots)
  {
    NextFits(fi, code, p);
    assert ItemOK(p.items[0], p.items[1..], LoopAround(p.ctx));
    assert OperandsItemOK(p.items[0], fi.slots);
  }

  /** A label: the block it closes, if any, ends; nothing else happens. */
  lemma LabelStep(fi: FuncInfo, o: WState, code: seq<Inst>, p: Place, c: Conf, w: WConf) returns (m: nat, k: nat, q: Place)
    requires Matched(fi, o, code, p, c, w) && p.items != [] && p.items[0].Lab?
    ensures Moves(fi, o, code, p, c, w, m, k, q)
  {
    hide TallyItem, FlowItem, LevelFacts, CtxOK, Body, Conts, Labels, Open, Resume, SameState, TempHolds, WRun, Run, Targets;
    Advance(fi, code, p);
    LabelNext(fi, code, p);
    q := Next(p);
    m := 1;
    RunOne(code, c);
    k := if Closes(p.items[0], p.T) then 1 else 0;
    LabelBlock(fi, code, p, w);
    hide Cur, Blocks, FlatTail;
    MatchedLater(fi, o, code, p, c, w, q, WRun(fi.rc, w, k));
  }

  lemma MatchedLater(fi: FuncInfo, o: WState, code: seq<Inst>, p: Place, c: Conf, w: WConf, q: Place, w': WConf)
    requires Matched(fi, o, code, p, c, w) && LevelFacts(fi, code, q) && q.ctx == p.ctx && !q.f.dead
    requires q.t.h == p.t.h && (q.t.kept ==> p.t.kept)
    requires At(code, q) == c.pc + 1
    requires w' == Code(Cur(fi, q), Blocks(fi, q), w.s)
    ensures Matched(fi, o, code, q, Running(c.pc + 1, c.s), w')
  {
    hide LevelFacts, CtxOK, FlatTail, Open, Labels, Conts, Body, SameState;
  }

  lemma LabelNext(fi: FuncInfo, code: seq<Inst>, p: Place)
    requires LevelFacts(fi, code, p) && p.items != [] && p.items[0].Lab? && !p.f.dead
    ensures !Next(p).f.dead && p.items[0].l !in TagsOf(p.ctx)
    ensures Next(p).t.h == p.t.h && (Next(p).t.kept ==> p.t.kept) && (Closes(p.items[0], p.T) ==> Next(p).t == EMPTY)
  {
    NextFits(fi, code, p);
  }

  lemma LabelBlock(fi: FuncInfo, code: seq<Inst>, p: Place, w: WConf)
    requires LevelFacts(fi, code, p) && p.items != [] && p.items[0].Lab? && !p.f.dead
    requires w.Code? && w.cur == Cur(fi, p) && w.labels == Blocks(fi, p)
    ensures WRun(fi.rc, w, if Closes(p.items[0], p.T) then 1 else 0) == Code(Cur(fi, Next(p)), Blocks(fi, Next(p)), w.s)
  {
    var q := Next(p);
    LabelNext(fi, code, p);
    Advance(fi, code, p);
    StackStep(fi, p);
    if Closes(p.items[0], p.T) {
      WRunOne(fi.rc, w);
      Calm(fi, code, q);
      assert [] + Cur(fi, q) == Cur(fi, q);
    } else {
      assert w.cur == [] + Cur(fi, q) == Cur(fi, q);
    }
  }

  /** At a live place with an empty stack nothing is reloaded. */
  lemma Calm(fi: FuncInfo, code: seq<Inst>, q: Place)
    requires LevelFacts(fi, code, q) && !q.f.dead && q.t.h == 0
    ensures Resume(fi, q.f, q.items) == []
  {
    CalmAtZero(q.items, q.t, q.T, TagsOf(q.ctx), LoopAround(q.ctx), []);
    assert Flatten(q.items) + [] == Flatten(q.items);
  }

  // ----- jumps -----

  lemma {:induction false} SameDepth(fi: FuncInfo, c: Ctx)
    ensures |Labels(fi, c)| == |Stk(c)|
    decreases c
  {
    if !c.Top? {
      SameDepth(fi, c.outer);
    }
  }

  lemma {:induction false} DepthPast(stk: seq<int>, inner: seq<int>, l: int)
    requires l in stk && l !in inner
    ensures Depth(stk + inner, l) == Depth(stk, l) + |inner|
    decreases |inner|
  {
    if inner == [] {
      assert stk + inner == stk;
    } else {
      var all := stk + inner;
      assert all[..|all| - 1] == stk + inner[..|inner| - 1];
      DepthPast(stk, inner[..|inner| - 1], l);
    }
  }

  /** The rest of the level after its label l. */
  function PlaceAfter(p: Place, l: int): Place
    requires l in TopLabs(p.items)
    decreases p.items
  {
    if p.items[0] == Lab(l) then Next(p) else PlaceAfter(Next(p), l)
  }

  /** A label that a live branch targets is live. */
  lemma {:induction false} LiveLabel(p: Place, l: int)
    requires l in TopLabs(p.items) && l in p.T && l in p.f.marked
    ensures !PlaceAfter(p, l).f.dead
    decreases p.items
  {
    if p.items[0] != Lab(l) {
      LiveLabel(Next(p), l);
    }
  }

  /** q is where a branch to the n-th open block of p continues, after the operations r. */
  ghost predicate BlockLeadsTo(fi: FuncInfo, p: Place, n: nat, q: Place, r: seq<W>) {
    && n < |Stack(p)| == |Blocks(fi, p)|
    && Blocks(fi, p)[n].target == r + Cur(fi, q)
    && Blocks(fi, p)[n].height == 0
    && Blocks(fi, p)[..n] == Blocks(fi, q)
  }

  /** The tally right after a label that a jump leads to. */
  function Arrival(l: int, V: set<int>): Tally {
    if l in V then Tally(1, true, false) else EMPTY
  }

  /** q is what follows label l. */
  ghost predicate LabelStarts(fi: FuncInfo, code: seq<Inst>, l: int, q: Place) {
    && LevelFacts(fi, code, q) && q.t == Arrival(l, TagsOf(q.ctx))
    && At(code, q) >= 1 && code[At(code, q) - 1] == Label(l)
  }

  /** How the open blocks change over one item. */
  lemma StackStep(fi: FuncInfo, p: Place)
    requires p.items != []
    ensures !Closes(p.items[0], p.T) ==> Stack(p) == Stack(Next(p)) && Blocks(fi, p) == Blocks(fi, Next(p))
    ensures Closes(p.items[0], p.T) ==>
      var a := Resume(fi, Next(p).f, Next(p).items) + Cur(fi, Next(p));
      Stack(p) == Stack(Next(p)) + [p.items[0].l] && Blocks(fi, p) == Blocks(fi, Next(p)) + [OpenBlock(a, a, 0)]
  {
    if Closes(p.items[0], p.T) {
      hide Resume;
      var q := Next(p);
      var a := Resume(fi, q.f, q.items) + Cur(fi, q);
      assert Stk(p.ctx) + (Open(q.items, q.T) + [p.items[0].l]) == Stack(q) + [p.items[0].l];
      var cs := Conts(fi, q.items, q.T, q.f, Stk(q.ctx));
      assert Labels(fi, p.ctx) + (cs + [OpenBlock(a, a, 0)]) == Blocks(fi, q) + [OpenBlock(a, a, 0)];
    }
  }

  lemma LeadsFurther(fi: FuncInfo, p: Place, r: Place, n: nat, q: Place, x: seq<W>, s: seq<int>, b: seq<OpenBlock>)
    requires BlockLeadsTo(fi, r, n, q, x)
    requires Stack(p) == Stack(r) + s && Blocks(fi, p) == Blocks(fi, r) + b && |s| == |b|
    ensures BlockLeadsTo(fi, p, n, q, x)
  {
    hide Stack, Blocks, Cur;
    assert Blocks(fi, p)[..n] == Blocks(fi, r)[..n];
  }

  lemma BlocksLength(fi: FuncInfo, p: Place)
    ensures |Stack(p)| == |Blocks(fi, p)|
  {
    SameDepth(fi, p.ctx);
  }

  lemma {:induction false} ToLabel(fi: FuncInfo, code: seq<Inst>, p: Place, l: int) returns (q: Place, n: nat)
    requires LevelFacts(fi, code, p) && l in TopLabs(p.items) && l in p.T
    ensures q == PlaceAfter(p, l) && q.ctx == p.ctx && LabelStarts(fi, code, l, q)
    ensures BlockLeadsTo(fi, p, n, q, Resume(fi, q.f, q.items)) && Depth(Stack(p), l) == |Stack(p)| - 1 - n
    ensures l in TagsOf(q.ctx) ==> Stackify.Reloads(Flatten(q.items))
    decreases p.items
  {
    hide Stack, Blocks, Cur, Resume, FlowItem, LevelFacts, TallyItem;
    Advance(fi, code, p);
    StackStep(fi, p);
    BlocksLength(fi, p);
    var r := Next(p);
    if p.items[0] == Lab(l) {
      q := r;
      n := |Stack(r)|;
      BlocksLength(fi, r);
      LabelHeight(fi, code, p);
      assert Blocks(fi, p)[..n] == Blocks(fi, r);
    } else {
      q, n := ToLabel(fi, code, r, l);
      var x := |Stack(p)| - |Stack(r)|;
      if Closes(p.items[0], p.T) {
        var a := Resume(fi, r.f, r.items) + Cur(fi, r);
        LeadsFurther(fi, p, r, n, q, Resume(fi, q.f, q.items), [p.items[0].l], [OpenBlock(a, a, 0)]);
        Deeper(Stack(p), Stack(r), p.items[0].l, l);
      } else {
        assert Stack(r) + [] == Stack(r) && Blocks(fi, r) + [] == Blocks(fi, r);
        LeadsFurther(fi, p, r, n, q, Resume(fi, q.f, q.items), [], []);
      }
    }
  }

  lemma LabelHeight(fi: FuncInfo, code: seq<Inst>, p: Place)
    requires LevelFacts(fi, code, p) && p.items != [] && p.items[0].Lab? && p.items[0].l in p.T
    ensures LabelStarts(fi, code, p.items[0].l, Next(p))
    ensures p.items[0].l in TagsOf(p.ctx) ==> Stackify.Reloads(Flatten(p.items[1..]))
  {
    Advance(fi, code, p);
    NextFits(fi, code, p);
  }

  lemma Deeper(s: seq<int>, r: seq<int>, x: int, l: int)
    requires s == r + [x] && x != l && l in r
    ensures Depth(s, l) == Depth(r, l) + 1
  {
    assert s[..|s| - 1] == r;
  }

  // ----- where a jump lands -----

  /** A branch to label l and the jump to l meet again at q, which is live; the flat machine is
      then past the label, and both have the operand stack they had - a tag included, which the
      branch drops and the code at the label takes from the temporary. */
  ghost predicate Lands(fi: FuncInfo, code: seq<Inst>, p: Place, l: int, s: WState, k: nat, q: Place) {
    && LabelStarts(fi, code, l, q) && CtxOK(fi, code, q.ctx) && !q.f.dead && TagsOf(q.ctx) == TagsOf(p.ctx)
    && l in Stack(p)
    && WRun(fi.rc, Branch(Depth(Stack(p), l), Blocks(fi, p), s), k) == Code(Cur(fi, q), Blocks(fi, q), s)
  }

  lemma BranchLands(fi: FuncInfo, p: Place, l: int, n: nat, q: Place, s: WState)
    requires BlockLeadsTo(fi, p, n, q, []) && l in Stack(p) && Depth(Stack(p), l) == |Stack(p)| - 1 - n
    requires s.stack == []
    ensures WRun(fi.rc, Branch(Depth(Stack(p), l), Blocks(fi, p), s), 0) == Code(Cur(fi, q), Blocks(fi, q), s)
  {
    hide Stack, Blocks, Cur;
    assert [] + Cur(fi, q) == Cur(fi, q);
    assert s.stack[..0] == s.stack;
  }

  /** After a branch to a tag label the operand stack holds what the temporary holds. */
  lemma BranchReloads(fi: FuncInfo, p: Place, l: int, n: nat, q: Place, s: WState)
    requires BlockLeadsTo(fi, p, n, q, [Op(LGet(fi.params))]) && l in Stack(p) && Depth(Stack(p), l) == |Stack(p)| - 1 - n
    ensures WRun(fi.rc, Branch(Depth(Stack(p), l), Blocks(fi, p), s), 1)
         == Code(Cur(fi, q), Blocks(fi, q), s.(stack := [Read(s.locals, fi.params)]))
  {
    hide Stack, Blocks, Cur;
    var b := Branch(Depth(Stack(p), l), Blocks(fi, p), s);
    assert s.stack[..0] == [];
    assert ([Op(LGet(fi.params))] + Cur(fi, q))[1..] == Cur(fi, q);
    assert [] + [Read(s.locals, fi.params)] == [Read(s.locals, fi.params)];
    WRunOne(fi.rc, b);
  }

  /** The operand stack a jump to l leaves with: empty, or the tag alone, which the temporary
      holds too. */
  ghost predicate Leaves(fi: FuncInfo, l: int, V: set<int>, s: WState) {
    if l in V then |s.stack| == 1 && Read(s.locals, fi.params) == s.stack[0] else s.stack == []
  }

  /** Forward, to a label of the same level. */
  lemma LandForward(fi: FuncInfo, code: seq<Inst>, p: Place, l: int, s: WState) returns (k: nat, q: Place)
    requires LevelFacts(fi, code, p) && CtxOK(fi, code, p.ctx)
    requires l in TopLabs(p.items) && l in p.T && l in p.f.marked && Leaves(fi, l, TagsOf(p.ctx), s)
    ensures Lands(fi, code, p, l, s, k, q)
  {
    hide WRun, Branch, Resume, LevelFacts, CtxOK, Stack, Blocks, Cur, BlockLeadsTo, Stackify.Reloads, Flatten, Open;
    var n;
    q, n := ToLabel(fi, code, p, l);
    LiveLabel(p, l);
    OpenLabel(p, l);
    if l in TagsOf(p.ctx) {
      ResumeTag(fi, q);
      BranchReloads(fi, p, l, n, q, s);
      TagAgain(fi, s);
      k := 1;
    } else {
      Calm(fi, code, q);
      BranchLands(fi, p, l, n, q, s);
      k := 0;
    }
  }

  lemma OpenLabel(p: Place, l: int)
    requires l in TopLabs(p.items) && l in p.T
    ensures l in Stack(p)
  {
    assert l in Open(p.items, p.T);
  }

  lemma ResumeTag(fi: FuncInfo, q: Place)
    requires !q.f.dead && Stackify.Reloads(Flatten(q.items))
    ensures Resume(fi, q.f, q.items) == [Op(LGet(fi.params))]
  {
  }

  /** What the temporary holds is the tag that was on the stack. */
  lemma TagAgain(fi: FuncInfo, s: WState)
    requires |s.stack| == 1 && Read(s.locals, fi.params) == s.stack[0]
    ensures s.(stack := [Read(s.locals, fi.params)]) == s
  {
    assert s.stack == [s.stack[0]];
  }

  /** The open blocks inside a loop are those of the place after it, the block that ends
      at the break label, the loop, and the blocks of the level. */
  lemma InsideLoop(fi: FuncInfo, p: Place, q: Place) returns (a: seq<W>)
    requires p.ctx.InLoop?
    requires q == Place(p.ctx.rest, p.ctx.T, AfterLoop(p.ctx), EMPTY, p.ctx.outer)
    ensures a == Dead(q.f) + Cur(fi, q)
    ensures Stack(p) == Stack(q) + [p.ctx.brk] + ([p.ctx.head] + Open(p.items, p.T))
    ensures |Blocks(fi, q)| == |Stack(q)| && |Blocks(fi, p)| == |Stack(p)|
    ensures Blocks(fi, p)[..|Stack(q)|] == Blocks(fi, q)
    ensures Blocks(fi, p)[|Stack(q)|] == OpenBlock(a, a, 0)
  {
    BlocksLength(fi, p);
    BlocksLength(fi, q);
    a := Dead(q.f) + Cur(fi, q);
    var loop := LoopW(Wrap(fi, [], p.ctx.body, Targets(p.ctx.body), p.ctx.f, Stk(p.ctx)));
    LoopLabels(fi, p.ctx, q, loop);
    hide Labels, Stack, Cur, Dead, Wrap, Conts, AfterLoop;
    var x, y := OpenBlock(a, a, 0), OpenBlock([loop], [], 0);
    Middle(Blocks(fi, q), x, [y], Conts(fi, p.items, p.T, p.f, Stk(p.ctx)));
    InsideStack(p, q);
  }

  lemma InsideStack(p: Place, q: Place)
    requires p.ctx.InLoop?
    requires q == Place(p.ctx.rest, p.ctx.T, AfterLoop(p.ctx), EMPTY, p.ctx.outer)
    ensures Stack(p) == Stack(q) + [p.ctx.brk] + ([p.ctx.head] + Open(p.items, p.T))
  {
  }

  lemma LoopLabels(fi: FuncInfo, c: Ctx, q: Place, loop: W)
    requires c.InLoop? && q == Place(c.rest, c.T, AfterLoop(c), EMPTY, c.outer)
    requires loop == LoopW(Wrap(fi, [], c.body, Targets(c.body), c.f, Stk(c)))
    ensures var a := Dead(q.f) + Cur(fi, q);
      Labels(fi, c) == Blocks(fi, q) + [OpenBlock(a, a, 0), OpenBlock([loop], [], 0)]
  {
  }

  lemma Middle(b: seq<OpenBlock>, x: OpenBlock, y: seq<OpenBlock>, c: seq<OpenBlock>)
    ensures var all := b + [x] + y + c; all[..|b|] == b && all[|b|] == x
    ensures |y| == 1 ==> b + [x, y[0]] + c == b + [x] + y + c
  {
  }

  /** Out of the enclosing loop. */
  lemma LandBreak(fi: FuncInfo, code: seq<Inst>, p: Place, s: WState) returns (k: nat, q: Place)
    requires LevelFacts(fi, code, p) && CtxOK(fi, code, p.ctx) && p.ctx.InLoop? && DistinctLabels(code)
    requires p.ctx.brk !in TopLabs(p.items) && p.ctx.brk in p.f.marked && s.stack == []
    ensures Lands(fi, code, p, p.ctx.brk, s, k, q)
  {
    q := Place(p.ctx.rest, p.ctx.T, AfterLoop(p.ctx), EMPTY, p.ctx.outer);
    MarkedStays(p.items, p.T, p.f, p.ctx.brk);
    BreakStarts(fi, code, p, q);
    HeadNotBreak(fi, code, p.ctx);
    BreakBlock(fi, p, q);
    assert Dead(q.f) == [];
    BranchLands(fi, p, p.ctx.brk, |Stack(q)|, q, s);
    k := 0;
  }

  lemma BreakBlock(fi: FuncInfo, p: Place, q: Place)
    requires p.ctx.InLoop? && p.ctx.head != p.ctx.brk && p.ctx.brk !in TopLabs(p.items)
    requires q == Place(p.ctx.rest, p.ctx.T, AfterLoop(p.ctx), EMPTY, p.ctx.outer)
    ensures BlockLeadsTo(fi, p, |Stack(q)|, q, Dead(q.f))
    ensures p.ctx.brk in Stack(p) && Depth(Stack(p), p.ctx.brk) == |Stack(p)| - 1 - |Stack(q)|
  {
    var a := InsideLoop(fi, p, q);
    hide Stack, Blocks, Cur, Dead, AfterLoop;
    DepthPast(Stack(q) + [p.ctx.brk], [p.ctx.head] + Open(p.items, p.T), p.ctx.brk);
  }

  lemma {:induction false} MarkedStays(items: seq<Item>, T: set<int>, f: Flow, l: int)
    requires l in f.marked
    ensures l in FlowAll(items, T, f).marked
  {
  }

  /** The break label stands right after the loop's body. */
  lemma BreakStarts(fi: FuncInfo, code: seq<Inst>, p: Place, q: Place)
    requires LevelFacts(fi, code, p) && CtxOK(fi, code, p.ctx) && p.ctx.InLoop?
    requires q == Place(p.ctx.rest, p.ctx.T, AfterLoop(p.ctx), EMPTY, p.ctx.outer)
    ensures LabelStarts(fi, code, p.ctx.brk, q)
  {
    var a, b := Flatten(p.items), [Label(p.ctx.brk)] + FlatTail(q);
    TailSplit(code, a, b);
    TailSplit(code, [Label(p.ctx.brk)], FlatTail(q));
  }

  lemma HeadNotBreak(fi: FuncInfo, code: seq<Inst>, c: Ctx)
    requires c.InLoop? && CtxOK(fi, code, c) && DistinctLabels(code)
    ensures c.head != c.brk
  {
    var b := Flatten(c.body) + TailCode(c);
    var whole := [Label(c.head)] + Flatten(c.body) + TailCode(c);
    assert whole == [Label(c.head)] + b;
    TailSplit(code, [Label(c.head)], b);
    var at := |code| - |whole|;
    assert code[at + 0] == Label(c.head);
    TailSplit(code, [Label(c.head)] + Flatten(c.body), TailCode(c));
    var i := |code| - |TailCode(c)|;
    assert code[i] == code[i..][0] == Label(c.brk);
  }

  /** Back to the head of the enclosing loop, whose body is entered again. */
  lemma LandHead(fi: FuncInfo, code: seq<Inst>, p: Place, s: WState) returns (k: nat, q: Place)
    requires LevelFacts(fi, code, p) && CtxOK(fi, code, p.ctx) && p.ctx.InLoop?
    requires p.ctx.head !in TopLabs(p.items) && s.stack == []
    ensures Lands(fi, code, p, p.ctx.head, s, k, q)
  {
    var c := p.ctx;
    q := Place(c.body, Targets(c.body), c.f, EMPTY, c);
    HeadStarts(fi, code, q);
    var body := Wrap(fi, [], c.body, q.T, c.f, Stk(c));
    var b, around := HeadBranch(fi, p, body, s);
    EnterLoop(fi, body, around, s);
    EnterBody(fi, q, s);
    k := 1 + |Open(c.body, q.T)|;
    WRunAdd(fi.rc, b, 1, |Open(c.body, q.T)|);
  }

  lemma HeadBranch(fi: FuncInfo, p: Place, body: seq<W>, s: WState) returns (b: WConf, around: seq<OpenBlock>)
    requires p.ctx.InLoop? && p.ctx.head !in TopLabs(p.items) && s.stack == []
    requires body == Wrap(fi, [], p.ctx.body, Targets(p.ctx.body), p.ctx.f, Stk(p.ctx))
    ensures p.ctx.head in Stack(p)
    ensures b == Branch(Depth(Stack(p), p.ctx.head), Blocks(fi, p), s) == Code([LoopW(body)], around, s)
    ensures around + [OpenBlock([LoopW(body)], [], 0)] == Labels(fi, p.ctx)
  {
    var c := p.ctx;
    BlocksLength(fi, p);
    HeadLabels(fi, c, body);
    hide Labels, Stk, Conts, Open, Wrap, Depth, Branch;
    DepthPast(Stk(c), Open(p.items, p.T), c.head);
    var n := |Stk(c)| - 1;
    around := Labels(fi, c)[..n];
    BranchOut(around, OpenBlock([LoopW(body)], [], 0), Conts(fi, p.items, p.T, p.f, Stk(c)), s);
    b := Branch(Depth(Stack(p), c.head), Blocks(fi, p), s);
  }

  /** The loop is the innermost block around its body. */
  lemma HeadLabels(fi: FuncInfo, c: Ctx, body: seq<W>)
    requires c.InLoop? && body == Wrap(fi, [], c.body, Targets(c.body), c.f, Stk(c))
    ensures |Labels(fi, c)| == |Stk(c)| >= 1 && c.head in Stk(c) && Depth(Stk(c), c.head) == 0
    ensures Labels(fi, c) == Labels(fi, c)[..|Stk(c)| - 1] + [OpenBlock([LoopW(body)], [], 0)]
  {
    SameDepth(fi, c);
    hide Wrap, Body, Conts;
    assert Labels(fi, c)[|Stk(c)| - 1] == OpenBlock([LoopW(body)], [], 0);
  }

  /** A branch past the inner blocks. */
  lemma BranchOut(around: seq<OpenBlock>, x: OpenBlock, inner: seq<OpenBlock>, s: WState)
    requires x.height == 0 && s.stack == []
    ensures Branch(|inner|, around + [x] + inner, s) == Code(x.target, around, s)
  {
    var all := around + [x] + inner;
    assert all[|around|] == x && all[..|around|] == around;
    assert s.stack[..0] == s.stack;
  }

  lemma EnterLoop(fi: FuncInfo, body: seq<W>, around: seq<OpenBlock>, s: WState)
    requires s.stack == []
    ensures WRun(fi.rc, Code([LoopW(body)], around, s), 1)
         == Code(body, around + [OpenBlock([LoopW(body)], [], 0)], s)
  {
    WRunOne(fi.rc, Code([LoopW(body)], around, s));
    assert [LoopW(body)][1..] == [];
    assert [LoopW(body)] + [] == [LoopW(body)];
  }

  /** From the start of a level the machine reaches the level's first item. */
  lemma EnterBody(fi: FuncInfo, q: Place, s: WState)
    requires s.stack == [] || Open(q.items, q.T) == []
    ensures WRun(fi.rc, Code(Wrap(fi, [], q.items, q.T, q.f, Stk(q.ctx)), Labels(fi, q.ctx), s), |Open(q.items, q.T)|)
         == Code(Cur(fi, q), Blocks(fi, q), s)
  {
    EnterLevel(fi, [], q.items, q.T, q.f, Stk(q.ctx), Labels(fi, q.ctx), s);
    assert [] + Cur(fi, q) == Cur(fi, q);
  }

  lemma HeadStarts(fi: FuncInfo, code: seq<Inst>, q: Place)
    requires q.ctx.InLoop? && CtxOK(fi, code, q.ctx)
    requires q == Place(q.ctx.body, Targets(q.ctx.body), q.ctx.f, EMPTY, q.ctx)
    ensures LabelStarts(fi, code, q.ctx.head, q)
  {
    var h := [Label(q.ctx.head)];
    HeadTail(code, h, Flatten(q.ctx.body), TailCode(q.ctx));
  }

  lemma HeadTail(code: seq<Inst>, h: seq<Inst>, a: seq<Inst>, b: seq<Inst>)
    requires IsTail(code, h + a + b) && |h| == 1
    ensures 1 <= |code| - |a + b| && code[|code| - |a + b| - 1] == h[0]
  {
    assert h + a + b == h + (a + b);
    TailSplit(code, h, a + b);
    assert code[|code| - |h + (a + b)| + 0] == h[0];
  }

  /** A jump item whose target is l, just passed on the way to p. */
  ghost predicate MayJump(p: Place, l: int) {
    && l in p.f.marked
    && ((l in TopLabs(p.items) && l in p.T)
        || (p.ctx.InLoop? && (l == p.ctx.head || l == p.ctx.brk)))
  }

  lemma Land(fi: FuncInfo, code: seq<Inst>, p: Place, l: int, s: WState) returns (k: nat, q: Place)
    requires LevelFacts(fi, code, p) && CtxOK(fi, code, p.ctx) && DistinctLabels(code)
    requires MayJump(p, l) && Leaves(fi, l, TagsOf(p.ctx), s)
    ensures Lands(fi, code, p, l, s, k, q)
  {
    if l in TopLabs(p.items) && l in p.T {
      k, q := LandForward(fi, code, p, l, s);
    } else if l == p.ctx.brk {
      NotHere(fi, code, p, l);
      k, q := LandBreak(fi, code, p, s);
    } else {
      NotHere(fi, code, p, l);
      k, q := LandHead(fi, code, p, s);
    }
  }

  /** The labels of the enclosing loop are not defined in its body. */
  lemma NotHere(fi: FuncInfo, code: seq<Inst>, p: Place, l: int)
    requires LevelFacts(fi, code, p) && CtxOK(fi, code, p.ctx) && DistinctLabels(code)
    requires p.ctx.InLoop? && (l == p.ctx.head || l == p.ctx.brk)
    ensures l !in TopLabs(p.items)
  {
    if l in TopLabs(p.items) {
      var i := LabelAt(fi, code, p, l);
      var j;
      if l == p.ctx.brk {
        j := BreakAfter(fi, code, p);
      } else {
        j := HeadBefore(fi, code, p);
      }
      assert false;
    }
  }

  lemma LabelAt(fi: FuncInfo, code: seq<Inst>, p: Place, l: int) returns (i: nat)
    requires LevelFacts(fi, code, p) && l in TopLabs(p.items)
    ensures At(code, p) <= i < At(code, p) + |Flatten(p.items)| <= |code| && code[i] == Label(l)
  {
    var j := LabelIn(p.items, l);
    TailSplit(code, Flatten(p.items), TailCode(p.ctx));
    i := At(code, p) + j;
  }

  lemma BreakAfter(fi: FuncInfo, code: seq<Inst>, p: Place) returns (i: nat)
    requires LevelFacts(fi, code, p) && CtxOK(fi, code, p.ctx) && p.ctx.InLoop?
    ensures At(code, p) + |Flatten(p.items)| <= i < |code| && code[i] == Label(p.ctx.brk)
  {
    var q := Place(p.ctx.rest, p.ctx.T, AfterLoop(p.ctx), EMPTY, p.ctx.outer);
    BreakStarts(fi, code, p, q);
    i := At(code, q) - 1;
  }

  lemma HeadBefore(fi: FuncInfo, code: seq<Inst>, p: Place) returns (i: nat)
    requires LevelFacts(fi, code, p) && CtxOK(fi, code, p.ctx) && p.ctx.InLoop?
    ensures i < At(code, p) && code[i] == Label(p.ctx.head)
  {
    var c := p.ctx;
    var q := Place(c.body, Targets(c.body), c.f, EMPTY, c);
    HeadStarts(fi, code, q);
    i := At(code, q) - 1;
  }

  lemma {:induction false} LabelIn(items: seq<Item>, l: int) returns (i: nat)
    requires l in TopLabs(items)
    ensures i < |Flatten(items)| && Flatten(items)[i] == Label(l)
    decreases items
  {
    if items[0] == Lab(l) {
      i := 0;
    } else {
      var j := LabelIn(items[1..], l);
      i := |FlatItem(items[0])| + j;
    }
  }

  // ----- the steps that jump -----

  /** The heights around a live jump: to a tag label it leaves the tag. */
  ghost predicate Departs(p: Place)
    requires p.items != [] && IsGoto(p.items[0])
  {
    var n := if p.items[0].l in TagsOf(p.ctx) then 1 else 0;
    && p.t.h == (if p.items[0].Goto? then n else n + 1)
    && (n == 1 ==> p.t.kept)
    && (!p.items[0].Goto? ==> Next(p).t == Arrival(p.items[0].l, TagsOf(p.ctx)))
  }

  /** The place past a jump that is taken may jump to its label. */
  lemma JumpAllowed(fi: FuncInfo, code: seq<Inst>, p: Place)
    requires LevelFacts(fi, code, p) && p.items != [] && IsGoto(p.items[0]) && !p.f.dead
    ensures MayJump(Next(p), p.items[0].l)
    ensures Departs(p)
    ensures Stack(p) == Stack(Next(p))
  {
    NextFits(fi, code, p);
    assert ItemOK(p.items[0], p.items[1..], LoopAround(p.ctx));
  }

  /** The flat side of a jump: to the label, then past it. */
  lemma FlatJump(code: seq<Inst>, c: Conf, l: int, q: int, s: State)
    requires c.Running? && DistinctLabels(code) && Step(Vm32, code, c) == Running(LabelPos(code, l), s)
    requires 1 <= q <= |code| && code[q - 1] == Label(l)
    ensures Run(Vm32, code, c, 2) == Running(q, s)
  {
    LabelPosFound(code, q - 1);
    RunAdd(Vm32, code, c, 1, 1);
    RunOne(code, c);
    RunOne(code, Running(q - 1, s));
  }

  /** Both machines take the jump and meet at q. */
  lemma BothJump(fi: FuncInfo, o: WState, code: seq<Inst>, p: Place, l: int, c: Conf, w: WConf, v: State, s: WState)
    returns (k: nat, q: Place)
    requires LevelFacts(fi, code, p) && CtxOK(fi, code, p.ctx) && DistinctLabels(code) && MayJump(p, l)
    requires c.Running? && Step(Vm32, code, c) == Running(LabelPos(code, l), v)
    requires l in Stack(p) ==> WStep(fi.rc, w) == Branch(Depth(Stack(p), l), Blocks(fi, p), s)
    requires SameState(fi, o, v, s) && Leaves(fi, l, TagsOf(p.ctx), s)
    ensures Matched(fi, o, code, q, Run(Vm32, code, c, 2), WRun(fi.rc, w, 1 + k))
  {
    hide Step, WStep, Branch, Stack, Blocks, Cur, Body, Conts, Labels, FlatTail, LevelFacts, CtxOK, SameState, WRun, Run,
      TagsOf;
    SameStacks(fi, o, v, s);
    var j;
    j, q := Land(fi, code, p, l, s);
    k := j;
    FlatJump(code, c, l, At(code, q), v);
    WRunAdd(fi.rc, w, 1, j);
    WRunOne(fi.rc, w);
    MatchedAt(fi, o, code, q, Run(Vm32, code, c, 2), WRun(fi.rc, w, 1 + k));
  }

  lemma MatchedAt(fi: FuncInfo, o: WState, code: seq<Inst>, q: Place, c: Conf, w: WConf)
    requires LevelFacts(fi, code, q) && CtxOK(fi, code, q.ctx) && !q.f.dead
    requires c.Running? && w.Code? && c.pc == At(code, q) && |c.s.stack| == q.t.h && SameState(fi, o, c.s, w.s)
    requires q.t.kept ==> TempHolds(fi, c.s, w.s)
    requires w.cur == Cur(fi, q) && w.labels == Blocks(fi, q)
    ensures Matched(fi, o, code, q, c, w)
  {
  }

  /** The instruction at a live jump. */
  lemma EmitsJump(fi: FuncInfo, p: Place, w: WConf)
    requires p.items != [] && IsGoto(p.items[0]) && !p.f.dead
    requires w.Code? && w.cur == EmitItem(fi, p.items[0], p.f, Stack(p)) + Cur(fi, Next(p))
    ensures var d := BranchTo(Stack(p), p.items[0].l);
      && w.cur != []
      && (p.items[0].Goto? ==> w.cur[0] == Op(Br(d)))
      && (p.items[0].GotoIf? ==> w.cur[0] == Op(BrIf(d)) && w.cur[1..] == Cur(fi, Next(p)))
      && (p.items[0].GotoIfNot? ==>
            |w.cur| >= 2 && w.cur[0] == Op(I32Eqz) && w.cur[1..] == [Op(BrIf(d))] + Cur(fi, Next(p)))
  {
    hide Wrap, Cur, Stack, FlowItem, BranchTo;
  }

  /** All that the two machines see at a live jump. */
  ghost predicate JumpView(fi: FuncInfo, o: WState, code: seq<Inst>, p: Place, c: Conf, w: WConf) {
    && p.items != [] && IsGoto(p.items[0]) && c.Running? && w.Code?
    && c.pc < |code| && code[c.pc] == FlatItem(p.items[0])[0]
    && At(code, Next(p)) == c.pc + 1
    && LevelFacts(fi, code, Next(p)) && CtxOK(fi, code, p.ctx)
    && MayJump(Next(p), p.items[0].l) && Next(p).ctx == p.ctx
    && w.labels == Blocks(fi, Next(p))
    && SameState(fi, o, c.s, w.s)
    && Departs(p) && |c.s.stack| == p.t.h && (p.t.kept ==> TempHolds(fi, c.s, w.s))
    && var d := BranchTo(Stack(Next(p)), p.items[0].l);
    && w.cur != []
    && (p.items[0].Goto? ==> w.cur[0] == Op(Br(d)))
    && (p.items[0].GotoIf? ==> w.cur[0] == Op(BrIf(d)) && w.cur[1..] == Cur(fi, Next(p)))
    && (p.items[0].GotoIfNot? ==>
          |w.cur| >= 2 && w.cur[0] == Op(I32Eqz) && w.cur[1..] == [Op(BrIf(d))] + Cur(fi, Next(p)))
  }

  lemma SeeJump(fi: FuncInfo, o: WState, code: seq<Inst>, p: Place, c: Conf, w: WConf)
    requires Matched(fi, o, code, p, c, w) && p.items != [] && IsGoto(p.items[0])
    ensures JumpView(fi, o, code, p, c, w)
  {
    hide LevelFacts, CtxOK, SameState, Stack, Blocks, FlowItem, TallyItem;
    SeeGoto(fi, o, code, p, c, w);
    JumpAllowed(fi, code, p);
    EmitsJump(fi, p, w);
  }

  lemma SeeGoto(fi: FuncInfo, o: WState, code: seq<Inst>, p: Place, c: Conf, w: WConf)
    requires Matched(fi, o, code, p, c, w) && p.items != [] && IsGoto(p.items[0])
    ensures LevelFacts(fi, code, Next(p)) && At(code, Next(p)) == c.pc + 1
    ensures w.cur == EmitItem(fi, p.items[0], p.f, Stack(p)) + Cur(fi, Next(p))
    ensures w.labels == Blocks(fi, Next(p)) && Stack(p) == Stack(Next(p))
    ensures c.pc < |code| && code[c.pc] == FlatItem(p.items[0])[0]
  {
    Fall(fi, o, code, p, c, w);
    StackStep(fi, p);
    assert |FlatItem(p.items[0])| == 1;
    hide LevelFacts, Stack, Cur, Blocks, EmitItem, FlatTail, Matched;
  }

  lemma BrStep(rc: nat, w: WConf, d: nat)
    requires w.Code? && w.cur != [] && w.cur[0] == Op(Br(d))
    ensures WStep(rc, w) == Branch(d, w.labels, w.s)
  {
  }

  lemma BrIfStep(rc: nat, w: WConf, d: nat, rest: seq<W>)
    requires w.Code? && w.cur != [] && w.cur[0] == Op(BrIf(d)) && w.cur[1..] == rest && |w.s.stack| >= 1
    ensures var n := |w.s.stack| - 1;
      && (w.s.stack[n] != 0 ==> WStep(rc, w) == Branch(d, w.labels, w.s.(stack := w.s.stack[..n])))
      && (w.s.stack[n] == 0 ==> WStep(rc, w) == Code(rest, w.labels, w.s.(stack := w.s.stack[..n])))
  {
  }

  lemma EqzStep(rc: nat, w: WConf, d: nat, rest: seq<W>) returns (w': WConf)
    requires w.Code? && |w.cur| >= 2 && w.cur[0] == Op(I32Eqz) && w.cur[1..] == [Op(BrIf(d))] + rest && |w.s.stack| >= 1
    ensures WStep(rc, w) == w' && w'.Code? && w'.labels == w.labels && w'.cur != [] && w'.cur[0] == Op(BrIf(d))
    ensures var n := |w.s.stack| - 1;
      w'.cur[1..] == rest && w'.s == w.s.(stack := w.s.stack[..n] + [FromBool(w.s.stack[n] == 0)])
  {
    w' := WStep(rc, w);
    assert ([Op(BrIf(d))] + rest)[1..] == rest;
  }

  lemma FlatJumpStep(code: seq<Inst>, c: Conf)
    requires c.Running? && c.pc < |code| && IsJump(code[c.pc]) && (!code[c.pc].Jmp? ==> |c.s.stack| >= 1)
    ensures var i := code[c.pc];
      && (i.Jmp? ==> Step(Vm32, code, c) == Running(LabelPos(code, i.l), c.s))
      && (!i.Jmp? ==>
            var n := |c.s.stack| - 1;
            var taken := i.JmpIf? <==> c.s.stack[n] != 0;
            Step(Vm32, code, c)
            == Running(if taken then LabelPos(code, i.l) else c.pc + 1, c.s.(stack := c.s.stack[..n])))
  {
  }

  /** The condition is popped on both sides; a tag below it stays. */
  lemma PopSame(fi: FuncInfo, o: WState, code: seq<Inst>, p: Place, c: Conf, w: WConf) returns (v: State, s: WState)
    requires JumpView(fi, o, code, p, c, w) && !p.items[0].Goto?
    ensures |c.s.stack| >= 1 && c.s.stack == w.s.stack
    ensures var n := |c.s.stack| - 1;
      v == c.s.(stack := c.s.stack[..n]) && s == w.s.(stack := w.s.stack[..n])
    ensures SameState(fi, o, v, s) && Leaves(fi, p.items[0].l, TagsOf(p.ctx), s)
    ensures |v.stack| == Next(p).t.h && (Next(p).t.kept ==> TempHolds(fi, v, s))
  {
    hide LevelFacts, CtxOK, SameState, Stack, Blocks, Cur, MayJump;
    SameStacks(fi, o, c.s, w.s);
    var n := |c.s.stack| - 1;
    v, s := c.s.(stack := c.s.stack[..n]), w.s.(stack := w.s.stack[..n]);
    StackSame(fi, o, c.s, w.s, c.s.stack[..n]);
  }

  lemma GotoStep(fi: FuncInfo, o: WState, code: seq<Inst>, p: Place, c: Conf, w: WConf) returns (k: nat, q: Place)
    requires JumpView(fi, o, code, p, c, w) && DistinctLabels(code) && p.items[0].Goto?
    ensures Matched(fi, o, code, q, Run(Vm32, code, c, 2), WRun(fi.rc, w, 1 + k))
  {
    hide LevelFacts, CtxOK, Stack, Blocks, Cur, Branch, Matched, MayJump, Step, WStep, Run, WRun, Next, At, SameState;
    SameStacks(fi, o, c.s, w.s);
    FlatJumpStep(code, c);
    BrStep(fi.rc, w, BranchTo(Stack(Next(p)), p.items[0].l));
    k, q := BothJump(fi, o, code, Next(p), p.items[0].l, c, w, c.s, w.s);
  }

  lemma GotoIfStep(fi: FuncInfo, o: WState, code: seq<Inst>, p: Place, c: Conf, w: WConf) returns (m: nat, k: nat, q: Place)
    requires JumpView(fi, o, code, p, c, w) && DistinctLabels(code) && p.items[0].GotoIf?
    requires !Next(p).f.dead
    ensures m >= 1 && Matched(fi, o, code, q, Run(Vm32, code, c, m), WRun(fi.rc, w, 1 + k))
  {
    hide LevelFacts, CtxOK, Stack, Blocks, Cur, Branch, Matched, MayJump, Step, WStep, Run, WRun, Next, At, SameState;
    var l := p.items[0].l;
    var v, s := PopSame(fi, o, code, p, c, w);
    FlatJumpStep(code, c);
    BrIfStep(fi.rc, w, BranchTo(Stack(Next(p)), l), Cur(fi, Next(p)));
    if w.s.stack[|w.s.stack| - 1] != 0 {
      m := 2;
      k, q := BothJump(fi, o, code, Next(p), l, c, w, v, s);
    } else {
      m, k, q := 1, 0, Next(p);
      RunOne(code, c);
      WRunOne(fi.rc, w);
      MatchedAt(fi, o, code, q, Running(c.pc + 1, v), Code(Cur(fi, q), w.labels, s));
    }
  }

  lemma GotoIfNotStep(fi: FuncInfo, o: WState, code: seq<Inst>, p: Place, c: Conf, w: WConf) returns (m: nat, k: nat, q: Place)
    requires JumpView(fi, o, code, p, c, w) && DistinctLabels(code) && p.items[0].GotoIfNot?
    requires !Next(p).f.dead
    ensures m >= 1 && Matched(fi, o, code, q, Run(Vm32, code, c, m), WRun(fi.rc, w, 2 + k))
  {
    hide LevelFacts, CtxOK, Stack, Blocks, Cur, Branch, Matched, MayJump, Step, WStep, Run, WRun, Next, At, SameState;
    var l, n := p.items[0].l, |w.s.stack| - 1;
    var v, s := PopSame(fi, o, code, p, c, w);
    FlatJumpStep(code, c);
    var w' := EqzPop(fi.rc, w, BranchTo(Stack(Next(p)), l), Cur(fi, Next(p)), s);
    if w.s.stack[n] == 0 {
      m := 2;
      k, q := BothJump(fi, o, code, Next(p), l, c, w', v, s);
      WRunAdd(fi.rc, w, 1, 1 + k);
    } else {
      m, k, q := 1, 0, Next(p);
      RunOne(code, c);
      WRunOne(fi.rc, w');
      WRunAdd(fi.rc, w, 1, 1);
      MatchedAt(fi, o, code, q, Running(c.pc + 1, v), Code(Cur(fi, q), w.labels, s));
    }
  }

  /** The negated test, up to the branch: s is the state without it. */
  lemma EqzPop(rc: nat, w: WConf, d: nat, rest: seq<W>, s: WState) returns (w': WConf)
    requires w.Code? && |w.cur| >= 2 && w.cur[0] == Op(I32Eqz) && w.cur[1..] == [Op(BrIf(d))] + rest && |w.s.stack| >= 1
    requires s == w.s.(stack := w.s.stack[..|w.s.stack| - 1])
    ensures WRun(rc, w, 1) == w' && w'.Code?
    ensures w.s.stack[|w.s.stack| - 1] == 0 ==> WStep(rc, w') == Branch(d, w.labels, s)
    ensures w.s.stack[|w.s.stack| - 1] != 0 ==> WStep(rc, w') == Code(rest, w.labels, s)
    ensures w'.labels == w.labels
  {
    hide WStep, Branch, WRun;
    w' := EqzStep(rc, w, d, rest);
    WRunOne(rc, w);
    assert w'.s.stack[..|w'.s.stack| - 1] == s.stack;
    assert w'.s.(stack := s.stack) == s;
    BrIfStep(rc, w', d, rest);
  }

  // ----- loops -----

  /** The place at the start of the body of the loop that is the first item. */
  function Inside(p: Place): Place
    requires p.items != [] && p.items[0].Loop?
  {
    var it := p.items[0];
    Place(it.body, Targets(it.body), p.f, EMPTY, InLoop(it.head, it.brk, it.body, p.items[1..], p.T, p.f, p.ctx))
  }

  lemma LoopFacts(fi: FuncInfo, code: seq<Inst>, p: Place)
    requires LevelFacts(fi, code, p) && CtxOK(fi, code, p.ctx) && !p.f.dead
    requires p.items != [] && p.items[0].Loop?
    ensures LevelFacts(fi, code, Inside(p)) && CtxOK(fi, code, Inside(p).ctx)
    ensures p.t.h == 0 && At(code, Inside(p)) == At(code, p) + 1
  {
    Advance(fi, code, p);
    LoopCode(code, p);
    LoopHeight(fi, code, p);
    assert ItemOK(p.items[0], p.items[1..], LoopAround(p.ctx));
    assert OperandsItemOK(p.items[0], fi.slots);
    assert ReturnsItemOK(p.items[0], p.f, fi.rc);
    assert AfterLoop(Inside(p).ctx) == Next(p).f;
  }

  lemma LoopHeight(fi: FuncInfo, code: seq<Inst>, p: Place)
    requires LevelFacts(fi, code, p) && p.items != [] && p.items[0].Loop?
    ensures p.t.h == 0 && TallyEnd(Inside(p)).h == 0 && Next(p).t == EMPTY
    ensures p.items[0].head !in TagsOf(p.ctx) && p.items[0].brk !in TagsOf(p.ctx)
  {
    NextFits(fi, code, p);
  }

  lemma LoopCode(code: seq<Inst>, p: Place)
    requires IsTail(code, FlatTail(p)) && p.items != [] && p.items[0].Loop?
    ensures IsTail(code, FlatTail(Inside(p)))
    ensures IsTail(code, [Label(p.items[0].head)] + Flatten(p.items[0].body) + TailCode(Inside(p).ctx))
    ensures At(code, Inside(p)) == At(code, p) + 1
  {
    hide Flatten, TailCode, FlatTail;
    var h := [Label(p.items[0].head)];
    LoopFlat(p);
    assert h + FlatTail(Inside(p)) == h + Flatten(p.items[0].body) + TailCode(Inside(p).ctx) by {
      FlatTailIs(Inside(p));
    }
    TailSplit(code, h, FlatTail(Inside(p)));
  }

  lemma FlatTailIs(p: Place)
    ensures FlatTail(p) == Flatten(p.items) + TailCode(p.ctx)
  {
  }

  lemma LoopFlat(p: Place)
    requires p.items != [] && p.items[0].Loop?
    ensures FlatTail(p) == [Label(p.items[0].head)] + FlatTail(Inside(p))
  {
    var it := p.items[0];
    var h, a, b := [Label(it.head)], Flatten(it.body), [Label(it.brk)];
    var r := Flatten(p.items[1..]);
    assert Flatten(p.items) == (h + a + b) + r;
    Regroup4(h, a, b, r, TailCode(p.ctx));
  }

  lemma Regroup4(h: seq<Inst>, a: seq<Inst>, b: seq<Inst>, r: seq<Inst>, t: seq<Inst>)
    ensures h + a + b + r + t == h + (a + (b + (r + t)))
  {
  }

  lemma LoopBlocks(fi: FuncInfo, p: Place) returns (body: seq<W>)
    requires p.items != [] && p.items[0].Loop?
    ensures var q := Inside(p);
      var a := Dead(Next(p).f) + Cur(fi, Next(p));
      && body == Wrap(fi, [], q.items, q.T, q.f, Stk(q.ctx))
      && EmitItem(fi, p.items[0], p.f, Stack(p)) + Cur(fi, Next(p)) == [Block([LoopW(body)])] + a
      && Labels(fi, q.ctx) == Blocks(fi, Next(p)) + [OpenBlock(a, a, 0)] + [OpenBlock([LoopW(body)], [], 0)]
  {
    var q := Inside(p);
    body := Wrap(fi, [], q.items, q.T, q.f, Stk(q.ctx));
    LoopEmits(fi, p, body);
    Regroup([Block([LoopW(body)])], Dead(Next(p).f), Cur(fi, Next(p)));
    var a := Dead(Next(p).f) + Cur(fi, Next(p));
    assert AfterLoop(q.ctx) == Next(p).f;
    assert [OpenBlock(a, a, 0)] + [OpenBlock([LoopW(body)], [], 0)]
        == [OpenBlock(a, a, 0), OpenBlock([LoopW(body)], [], 0)];
    var x, y := OpenBlock(a, a, 0), OpenBlock([LoopW(body)], [], 0);
    assert Blocks(fi, Next(p)) + [x] + [y] == Blocks(fi, Next(p)) + [x, y];
  }

  lemma LoopEmits(fi: FuncInfo, p: Place, body: seq<W>)
    requires p.items != [] && p.items[0].Loop?
    requires body == Wrap(fi, [], Inside(p).items, Inside(p).T, Inside(p).f, Stk(Inside(p).ctx))
    ensures EmitItem(fi, p.items[0], p.f, Stack(p)) == [Block([LoopW(body)])] + Dead(Next(p).f)
  {
    assert Stk(Inside(p).ctx) == Stack(p) + [p.items[0].brk, p.items[0].head];
  }

  /** What both machines see at a live item that closes no block. */
  ghost predicate Ahead(fi: FuncInfo, o: WState, code: seq<Inst>, p: Place, c: Conf, w: WConf) {
    && p.items != [] && !p.f.dead && c.Running? && w.Code?
    && LevelFacts(fi, code, p) && CtxOK(fi, code, p.ctx)
    && LevelFacts(fi, code, Next(p))
    && c.pc == At(code, p) && c.pc < |code| && code[c.pc] == FlatItem(p.items[0])[0]
    && SameState(fi, o, c.s, w.s) && |c.s.stack| == p.t.h && (p.t.kept ==> TempHolds(fi, c.s, w.s))
    && w.cur == EmitItem(fi, p.items[0], p.f, Stack(p)) + Cur(fi, Next(p))
    && w.labels == Blocks(fi, Next(p))
  }

  lemma SeeAhead(fi: FuncInfo, o: WState, code: seq<Inst>, p: Place, c: Conf, w: WConf)
    requires Matched(fi, o, code, p, c, w) && p.items != [] && !Closes(p.items[0], p.T)
    ensures Ahead(fi, o, code, p, c, w)
  {
    Fall(fi, o, code, p, c, w);
  }

  lemma ReturnStep(fi: FuncInfo, o: WState, code: seq<Inst>, p: Place, c: Conf, w: WConf)
    requires Ahead(fi, o, code, p, c, w) && fi.rc <= MAX_RESULTS
    requires p.items[0].Plain? && p.items[0].op.Return?
    ensures Run(Vm32, code, c, 1) == Done(c.s.stack)
    ensures WRun(fi.rc, w, |ReturnCode(fi)|).Finished? && WRun(fi.rc, w, |ReturnCode(fi)|).result == c.s.stack
    ensures Left(fi, o, WRun(fi.rc, w, |ReturnCode(fi)|))
  {
    hide LevelFacts, CtxOK, Stack, Cur, Blocks, FlatTail, EmitItem, WRun, Run, ReturnCode, Next;
    PlainFits(fi, code, p);
    ReturnEmits(fi, code, p);
    RunOne(code, c);
    ReturnSim(fi, Cur(fi, Next(p)), w.labels, w.s);
    LeftBy(fi, o, c.s, w.s, WRun(fi.rc, w, |ReturnCode(fi)|));
  }

  lemma LeftBy(fi: FuncInfo, o: WState, v: State, s: WState, e: WConf)
    requires SameState(fi, o, v, s) && e.Finished? && e.sp == Popped(fi, s.sp)
    requires KeptBut(s.mem, e.mem, SCRATCH, SCRATCH + 4 * fi.rc)
    ensures Left(fi, o, e)
  {
    hide Popped;
    forall a | !InFrame(fi, o.sp, a) && !InScratch(fi, a)
      ensures Read(e.mem, a) == Read(o.mem, a)
    {
      assert Read(e.mem, a) == Read(s.mem, a);
    }
  }

  lemma ReturnEmits(fi: FuncInfo, code: seq<Inst>, p: Place)
    requires LevelFacts(fi, code, p) && p.items != [] && p.items[0].Plain? && p.items[0].op.Return? && !p.f.dead
    ensures EmitItem(fi, p.items[0], p.f, Stack(p)) == Ops(ReturnCode(fi)) && p.items[0].op.n == fi.rc
  {
    assert ReturnsItemOK(p.items[0], p.f, fi.rc);
  }

  lemma LoopStep(fi: FuncInfo, o: WState, code: seq<Inst>, p: Place, c: Conf, w: WConf) returns (k: nat)
    requires Ahead(fi, o, code, p, c, w) && p.items[0].Loop?
    ensures k >= 1 && Matched(fi, o, code, Inside(p), Run(Vm32, code, c, 1), WRun(fi.rc, w, k))
  {
    hide LevelFacts, CtxOK, Stack, Blocks, Cur, Labels, FlatTail, WStep, WRun, Run, EmitItem, Wrap, Next, Open, Matched;
    var q := Inside(p);
    LoopFacts(fi, code, p);
    RunOne(code, c);
    var body := LoopBlocks(fi, p);
    var a := Dead(Next(p).f) + Cur(fi, Next(p));
    k := EnterWhole(fi, q, w, body, a);
    MatchedAt(fi, o, code, q, Running(c.pc + 1, c.s), Code(Cur(fi, q), Blocks(fi, q), w.s));
  }

  /** Through the block of the break label and the loop into the body. */
  lemma EnterWhole(fi: FuncInfo, q: Place, w: WConf, body: seq<W>, a: seq<W>) returns (k: nat)
    requires w.Code? && w.cur == [Block([LoopW(body)])] + a && w.s.stack == []
    requires body == Wrap(fi, [], q.items, q.T, q.f, Stk(q.ctx))
    requires Labels(fi, q.ctx) == w.labels + [OpenBlock(a, a, 0)] + [OpenBlock([LoopW(body)], [], 0)]
    ensures k >= 1 && WRun(fi.rc, w, k) == Code(Cur(fi, q), Blocks(fi, q), w.s)
  {
    hide WRun, WStep, Wrap, Labels, Cur, Blocks, Open;
    ThenOpen(fi.rc, w, 0, [LoopW(body)], a, w.labels, w.s) by {
      WRunNone(fi.rc, w);
    }
    EnterLoop(fi, body, w.labels + [OpenBlock(a, a, 0)], w.s);
    EnterBody(fi, q, w.s);
    var n := |Open(q.items, q.T)|;
    WRunAdd(fi.rc, w, 1, 1);
    WRunAdd(fi.rc, w, 2, n);
    k := 2 + n;
  }

  lemma WRunNone(rc: nat, w: WConf)
    ensures WRun(rc, w, 0) == w
  {
  }

  // ----- short circuits -----

  /** The place at the start of the right operand of the short circuit that is the first item. */
  function Operand(p: Place): Place
    requires p.items != [] && p.items[0].Short?
  {
    var it := p.items[0];
    Place(it.rhs, {}, p.f, Tally(p.t.h - 1, p.t.kept && p.t.h >= 2, false),
          InShort(it.tgt, it.end, it.k, p.items[1..], p.T, p.f, Next(p).t, p.ctx))
  }

  lemma ShortFacts(fi: FuncInfo, code: seq<Inst>, p: Place)
    requires LevelFacts(fi, code, p) && CtxOK(fi, code, p.ctx) && !p.f.dead
    requires p.items != [] && p.items[0].Short?
    ensures LevelFacts(fi, code, Operand(p)) && CtxOK(fi, code, Operand(p).ctx)
    ensures p.t.h >= 1 && Next(p).t.h == p.t.h && (Next(p).t.kept ==> p.t.kept && p.t.h >= 2)
    ensures Next(p).f == p.f && Open(p.items[0].rhs, {}) == []
    ensures p.items[0].k == FromBool(p.items[0].onTrue)
    ensures IsTail(code, FlatTail(p))
  {
    Advance(fi, code, p);
    ShortCode(code, p);
    ShortHeight(fi, code, p);
    OperandLevel(fi, code, p);
  }

  lemma OperandLevel(fi: FuncInfo, code: seq<Inst>, p: Place)
    requires p.items != [] && p.items[0].Short? && IsTail(code, FlatTail(Operand(p)))
    requires var it, q := p.items[0], Operand(p);
      && RhsOK(it.rhs) && OperandsOK(it.rhs, fi.slots)
      && p.t.h >= 1 && Next(p).t.h == p.t.h && !Next(p).t.gone
      && TallyEnd(q).h == p.t.h && (Next(p).t.kept ==> TallyEnd(q).kept)
    ensures LevelFacts(fi, code, Operand(p)) && Open(p.items[0].rhs, {}) == []
  {
    RhsLevel(p.items[0].rhs, {}, p.f, fi.rc);
  }

  lemma ShortHeight(fi: FuncInfo, code: seq<Inst>, p: Place)
    requires LevelFacts(fi, code, p) && !p.f.dead && p.items != [] && p.items[0].Short?
    ensures var it := p.items[0];
      && p.t.h >= 1 && Next(p).t.h == p.t.h && !Next(p).t.gone
      && TallyEnd(Operand(p)).h == p.t.h && (Next(p).t.kept ==> TallyEnd(Operand(p)).kept && p.t.kept && p.t.h >= 2)
      && RhsOK(it.rhs) && it.k == FromBool(it.onTrue) && OperandsOK(it.rhs, fi.slots)
  {
    NextFits(fi, code, p);
    assert ItemOK(p.items[0], p.items[1..], LoopAround(p.ctx));
    assert OperandsItemOK(p.items[0], fi.slots);
  }

  /** The positions of the pieces of a short circuit. */
  lemma ShortCode(code: seq<Inst>, p: Place)
    requires IsTail(code, FlatTail(p)) && p.items != [] && p.items[0].Short?
    ensures var it := p.items[0];
      && IsTail(code, FlatTail(Operand(p)))
      && At(code, Operand(p)) == At(code, p) + 1
      && code[At(code, p)] == (if it.onTrue then JmpIf(it.tgt) else JmpIfNot(it.tgt))
      && var e := At(code, Next(p));
      && At(code, p) + 5 <= e <= |code|
      && code[e - 4] == Jmp(it.end) && code[e - 3] == Label(it.tgt)
      && code[e - 2] == ConstBool(it.k) && code[e - 1] == Label(it.end)
  {
    hide Flatten, TailCode, FlatTail, IsTail, TallyItem, FlowItem;
    var it := p.items[0];
    var h := [if it.onTrue then JmpIf(it.tgt) else JmpIfNot(it.tgt)];
    var b := [Jmp(it.end), Label(it.tgt), ConstBool(it.k), Label(it.end)];
    ShortFlat(p, h, b);
    PiecesAt(code, h, Flatten(it.rhs), b, FlatTail(Next(p)));
  }

  lemma PiecesAt(code: seq<Inst>, h: seq<Inst>, a: seq<Inst>, b: seq<Inst>, r: seq<Inst>)
    requires IsTail(code, h + (a + (b + r))) && |h| == 1 && |b| == 4
    ensures IsTail(code, a + (b + r))
    ensures var at, e := |code| - |h + (a + (b + r))|, |code| - |r|;
      && 0 <= at && at + 5 <= e <= |code| && |code| - |a + (b + r)| == at + 1
      && code[at] == h[0] && code[e - 4] == b[0] && code[e - 3] == b[1] && code[e - 2] == b[2] && code[e - 1] == b[3]
  {
    TailSplit(code, h, a + (b + r));
    assert code[|code| - |h + (a + (b + r))| + 0] == h[0];
    TailSplit(code, a, b + r);
    FourAt(code, b, r);
  }

  lemma FourAt(code: seq<Inst>, b: seq<Inst>, r: seq<Inst>)
    requires IsTail(code, b + r) && |b| == 4
    ensures var e := |code| - |r|;
      4 <= e && code[e - 4] == b[0] && code[e - 3] == b[1] && code[e - 2] == b[2] && code[e - 1] == b[3]
  {
    TailSplit(code, b, r);
    var at := |code| - |b + r|;
    assert code[at + 0] == b[0] && code[at + 1] == b[1] && code[at + 2] == b[2] && code[at + 3] == b[3];
  }

  lemma ShortFlat(p: Place, h: seq<Inst>, b: seq<Inst>)
    requires p.items != [] && p.items[0].Short?
    requires var it := p.items[0];
      && h == [if it.onTrue then JmpIf(it.tgt) else JmpIfNot(it.tgt)]
      && b == [Jmp(it.end), Label(it.tgt), ConstBool(it.k), Label(it.end)]
    ensures FlatTail(p) == h + FlatTail(Operand(p))
    ensures FlatTail(Operand(p)) == Flatten(p.items[0].rhs) + (b + FlatTail(Next(p)))
  {
    hide TallyItem, FlowItem;
    var a, r := Flatten(p.items[0].rhs), Flatten(p.items[1..]);
    assert Flatten(p.items) == (h + a + b) + r;
    Regroup4(h, a, b, r, TailCode(p.ctx));
  }

  /** The end of the right operand: its value is the value of the whole. */
  lemma OperandEnd(fi: FuncInfo, o: WState, code: seq<Inst>, p: Place, c: Conf, w: WConf) returns (q: Place)
    requires Matched(fi, o, code, p, c, w) && DistinctLabels(code) && p.items == [] && p.ctx.InShort?
    ensures Matched(fi, o, code, q, Run(Vm32, code, c, 2), WRun(fi.rc, w, 1))
  {
    var x := p.ctx;
    q := Place(x.rest, x.T, x.f, x.t, x.outer);
    OperandEndCode(code, p, q);
    OperandEndBlock(fi, p, q, w);
    hide LevelFacts, CtxOK, Stack, Blocks, Cur, Body, Conts, Labels, FlatTail, Step, WStep;
    FlatJumpStep(code, c);
    FlatJump(code, c, x.end, At(code, q), c.s);
    MatchedAt(fi, o, code, q, Run(Vm32, code, c, 2), WRun(fi.rc, w, 1));
  }

  lemma OperandEndCode(code: seq<Inst>, p: Place, q: Place)
    requires IsTail(code, FlatTail(p)) && p.items == [] && p.ctx.InShort?
    requires q == Place(p.ctx.rest, p.ctx.T, p.ctx.f, p.ctx.t, p.ctx.outer)
    ensures At(code, q) == At(code, p) + 4 <= |code|
    ensures code[At(code, p)] == Jmp(p.ctx.end) && code[At(code, q) - 1] == Label(p.ctx.end)
  {
    hide Flatten;
    var x := p.ctx;
    var b := [Jmp(x.end), Label(x.tgt), ConstBool(x.k), Label(x.end)];
    assert FlatTail(p) == b + FlatTail(q) by { FlattenNone(); }
    hide FlatTail;
    FourAt(code, b, FlatTail(q));
  }

  lemma FlattenNone()
    ensures Flatten([]) == []
  {
  }

  lemma OperandEndBlock(fi: FuncInfo, p: Place, q: Place, w: WConf)
    requires p.items == [] && p.ctx.InShort? && w.Code?
    requires q == Place(p.ctx.rest, p.ctx.T, p.ctx.f, p.ctx.t, p.ctx.outer)
    requires w.cur == Cur(fi, p) && w.labels == Blocks(fi, p)
    ensures WRun(fi.rc, w, 1) == Code(Cur(fi, q), Blocks(fi, q), w.s)
  {
    WRunOne(fi.rc, w);
    var a := OpenBlock(Cur(fi, q), Cur(fi, q), if p.ctx.t.h >= 1 then p.ctx.t.h - 1 else 0);
    assert w.labels == Blocks(fi, q) + [a];
    assert w.labels[..|w.labels| - 1] == Blocks(fi, q);
  }

  /** The structured side of the test. */
  lemma ShortIf(fi: FuncInfo, p: Place, w: WConf)
    requires p.items != [] && p.items[0].Short? && !p.f.dead && w.Code?
    requires w.cur == EmitItem(fi, p.items[0], p.f, Stack(p)) + Cur(fi, Next(p))
    requires w.labels == Blocks(fi, Next(p)) && |w.s.stack| == p.t.h >= 1 && Next(p).t.h == p.t.h
    ensures var it, q, n := p.items[0], Operand(p), |w.s.stack|;
      WStep(fi.rc, w) ==
        Code(if (w.s.stack[n - 1] != 0) == it.onTrue then [Op(I32Const(it.k))]
             else Wrap(fi, [], q.items, q.T, q.f, Stk(q.ctx)),
             Labels(fi, q.ctx), w.s.(stack := w.s.stack[..n - 1]))
  {
    hide TallyItem, FlowItem, Wrap, EmitItem, Labels, Blocks, Cur, Next, Stack;
    var it, q := p.items[0], Operand(p);
    var r := Wrap(fi, [], q.items, q.T, q.f, Stk(q.ctx));
    ShortEmits(fi, p, r);
    OperandLabels(fi, p);
    IfStep(fi.rc, w, it, r, Cur(fi, Next(p)));
  }

  lemma OperandLabels(fi: FuncInfo, p: Place)
    requires p.items != [] && p.items[0].Short? && p.t.h >= 1 && Next(p).t.h == p.t.h
    ensures Labels(fi, Operand(p).ctx)
         == Blocks(fi, Next(p)) + [OpenBlock(Cur(fi, Next(p)), Cur(fi, Next(p)), p.t.h - 1)]
  {
    hide TallyItem, Conts, Body;
  }

  lemma IfStep(rc: nat, w: WConf, it: Item, r: seq<W>, rest: seq<W>)
    requires w.Code? && it.Short? && |w.s.stack| >= 1
    requires w.cur == [if it.onTrue then If([Op(I32Const(it.k))], r) else If(r, [Op(I32Const(it.k))])] + rest
    ensures var n := |w.s.stack|;
      WStep(rc, w) ==
        Code(if (w.s.stack[n - 1] != 0) == it.onTrue then [Op(I32Const(it.k))] else r,
             w.labels + [OpenBlock(rest, rest, n - 1)], w.s.(stack := w.s.stack[..n - 1]))
  {
    assert w.cur[1..] == rest;
  }

  lemma ShortEmits(fi: FuncInfo, p: Place, r: seq<W>)
    requires p.items != [] && p.items[0].Short? && !p.f.dead
    requires r == Wrap(fi, [], Operand(p).items, Operand(p).T, Operand(p).f, Stk(Operand(p).ctx))
    ensures var it := p.items[0];
      EmitItem(fi, it, p.f, Stack(p)) ==
        [if it.onTrue then If([Op(I32Const(it.k))], r) else If(r, [Op(I32Const(it.k))])]
  {
    assert Stk(Operand(p).ctx) == Stack(p) + [-1];
  }

  lemma DropTop(fi: FuncInfo, o: WState, v: State, s: WState, xs: seq<int>)
    requires SameState(fi, o, v, s) && |v.stack| >= 1 && |xs| <= 1 && Words(xs)
    ensures var st := v.stack[..|v.stack| - 1] + xs;
      SameState(fi, o, v.(stack := st), s.(stack := st))
  {
  }

  /** The condition decides: the machines enter the right operand. */
  lemma EnterOperand(fi: FuncInfo, o: WState, code: seq<Inst>, p: Place, c: Conf, w: WConf)
    requires Ahead(fi, o, code, p, c, w) && p.items[0].Short? && |c.s.stack| >= 1
    requires (c.s.stack[|c.s.stack| - 1] != 0) != p.items[0].onTrue
    ensures Matched(fi, o, code, Operand(p), Run(Vm32, code, c, 1), WRun(fi.rc, w, 1))
  {
    hide LevelFacts, CtxOK, Stack, Cur, FlatTail, WRun, WStep, EmitItem, Wrap, Blocks, Labels, Next, Run, Open, Matched, SameState;
    var q := Operand(p);
    assert c.s.stack == w.s.stack by { SameStacks(fi, o, c.s, w.s); }
    ShortFacts(fi, code, p);
    ShortCode(code, p);
    ShortIf(fi, p, w);
    RunOne(code, c);
    WRunOne(fi.rc, w);
    var n := |c.s.stack|;
    var v, s := c.s.(stack := c.s.stack[..n - 1]), w.s.(stack := w.s.stack[..n - 1]);
    assert c.s.stack[..n - 1] + [] == c.s.stack[..n - 1];
    DropTop(fi, o, c.s, w.s, []);
    EnterBody(fi, q, s);
    WRunNone(fi.rc, Code(Wrap(fi, [], q.items, q.T, q.f, Stk(q.ctx)), Labels(fi, q.ctx), s));
    MatchedAt(fi, o, code, q, Running(c.pc + 1, v), Code(Cur(fi, q), Blocks(fi, q), s));
  }

  /** The condition decides: the machines skip the right operand. */
  lemma SkipOperand(fi: FuncInfo, o: WState, code: seq<Inst>, p: Place, c: Conf, w: WConf)
    requires Ahead(fi, o, code, p, c, w) && DistinctLabels(code)
    requires p.items[0].Short? && |c.s.stack| >= 1
    requires (c.s.stack[|c.s.stack| - 1] != 0) == p.items[0].onTrue
    ensures Matched(fi, o, code, Next(p), Run(Vm32, code, c, 4), WRun(fi.rc, w, 3))
  {
    hide LevelFacts, CtxOK, Stack, Cur, FlatTail, WRun, WStep, EmitItem, Wrap, Blocks, Labels, Run, Open, Matched, SameState, Step;
    var it, q := p.items[0], Next(p);
    assert c.s.stack == w.s.stack by { SameStacks(fi, o, c.s, w.s); }
    ShortFacts(fi, code, p);
    ShortCode(code, p);
    ShortIf(fi, p, w);
    OperandLabels(fi, p);
    var n := |c.s.stack|;
    var st := c.s.stack[..n - 1];
    DropTop(fi, o, c.s, w.s, [it.k]);
    var v, s := c.s.(stack := st + [it.k]), w.s.(stack := st + [it.k]);
    var a := OpenBlock(Cur(fi, q), Cur(fi, q), p.t.h - 1);
    FlatSkip(code, c, At(code, q), it);
    WasmSkip(fi.rc, w, it.k, st, Blocks(fi, q), a, Cur(fi, q));
    MatchedAt(fi, o, code, q, Running(At(code, q), v), Code(Cur(fi, q), Blocks(fi, q), s));
  }

  lemma FlatSkip(code: seq<Inst>, c: Conf, e: int, it: Item)
    requires it.Short? && it.k == FromBool(it.onTrue) && DistinctLabels(code) && c.Running? && |c.s.stack| >= 1
    requires c.pc < |code| && code[c.pc] == (if it.onTrue then JmpIf(it.tgt) else JmpIfNot(it.tgt))
    requires (c.s.stack[|c.s.stack| - 1] != 0) == it.onTrue
    requires 3 <= e <= |code|
    requires code[e - 3] == Label(it.tgt) && code[e - 2] == ConstBool(it.k) && code[e - 1] == Label(it.end)
    ensures Run(Vm32, code, c, 4) == Running(e, c.s.(stack := c.s.stack[..|c.s.stack| - 1] + [it.k]))
  {
    hide Run, Step, LabelPos, DistinctLabels;
    var s := c.s.(stack := c.s.stack[..|c.s.stack| - 1]);
    var t := s.(stack := s.stack + [it.k]);
    TestTaken(code, c, it, s);
    FlatJump(code, c, it.tgt, e - 2, s);
    ConstStep(code, e - 2, s, it.k);
    LabelPassed(code, e - 1, t);
    RunAdd(Vm32, code, c, 2, 1);
    RunAdd(Vm32, code, c, 3, 1);
  }

  lemma TestTaken(code: seq<Inst>, c: Conf, it: Item, s: State)
    requires it.Short? && c.Running? && |c.s.stack| >= 1 && s == c.s.(stack := c.s.stack[..|c.s.stack| - 1])
    requires c.pc < |code| && code[c.pc] == (if it.onTrue then JmpIf(it.tgt) else JmpIfNot(it.tgt))
    requires (c.s.stack[|c.s.stack| - 1] != 0) == it.onTrue
    ensures Step(Vm32, code, c) == Running(LabelPos(code, it.tgt), s)
  {
    hide LabelPos, Apply;
  }

  lemma ConstStep(code: seq<Inst>, pc: nat, s: State, k: int)
    requires pc < |code| && code[pc] == ConstBool(k) && 0 <= k <= 1
    ensures Run(Vm32, code, Running(pc, s), 1) == Running(pc + 1, s.(stack := s.stack + [k]))
  {
    hide LabelPos, Run;
    RunOne(code, Running(pc, s));
  }

  lemma LabelPassed(code: seq<Inst>, pc: nat, s: State)
    requires pc < |code| && code[pc].Label?
    ensures Run(Vm32, code, Running(pc, s), 1) == Running(pc + 1, s)
  {
    hide LabelPos, Apply;
    RunOne(code, Running(pc, s));
  }

  lemma WasmSkip(rc: nat, w: WConf, k: int, st: seq<int>, labels: seq<OpenBlock>, a: OpenBlock, rest: seq<W>)
    requires w.Code? && 0 <= k <= 1 && a.after == rest
    requires WStep(rc, w) == Code([Op(I32Const(k))], labels + [a], w.s.(stack := st))
    ensures WRun(rc, w, 3) == Code(rest, labels, w.s.(stack := st + [k]))
  {
    hide WRun, WStep;
    var w1, w2 := WStep(rc, w), Code([], labels + [a], w.s.(stack := st + [k]));
    WRunOne(rc, w);
    ConstOp(rc, w1, k, labels + [a], w.s.(stack := st));
    LeaveBlock(rc, labels, a, w2.s);
    WRunAdd(rc, w, 1, 1);
    WRunAdd(rc, w, 2, 1);
  }

  lemma ConstOp(rc: nat, w: WConf, k: int, labels: seq<OpenBlock>, s: WState)
    requires w == Code([Op(I32Const(k))], labels, s) && 0 <= k <= 1
    ensures WRun(rc, w, 1) == Code([], labels, s.(stack := s.stack + [k]))
  {
    WRunOne(rc, w);
    assert [Op(I32Const(k))][1..] == [];
  }

  lemma LeaveBlock(rc: nat, labels: seq<OpenBlock>, a: OpenBlock, s: WState)
    ensures WRun(rc, Code([], labels + [a], s), 1) == Code(a.after, labels, s)
  {
    WRunOne(rc, Code([], labels + [a], s));
    assert (labels + [a])[..|labels|] == labels;
  }

  // ----- whole runs -----

  /** What the code of a function must be like apart from its shape. */
  ghost predicate Wellformed(code: seq<Inst>) {
    DistinctLabels(code) && ConstsBelow(code, TWO32)
  }

  /** Both machines have finished, with the same values; after a return the structured one has
      given its frame back and kept the caller's memory. */
  ghost predicate SameEnd(fi: FuncInfo, o: WState, code: seq<Inst>, c: Conf, e: WConf) {
    && c.Done? && e.Finished? && e.result == c.result
    && (EndsInReturn(code) ==> Left(fi, o, e))
  }

  /** One move of the two machines: they finish with the same values, or meet again. */
  lemma SimStep(fi: FuncInfo, o: WState, code: seq<Inst>, p: Place, c: Conf, w: WConf)
    returns (m: nat, k: nat, over: bool, q: Place)
    requires Matched(fi, o, code, p, c, w) && Wellformed(code) && fi.rc <= MAX_RESULTS
    ensures !over ==> Moves(fi, o, code, p, c, w, m, k, q)
    ensures over ==> m >= 1 && SameEnd(fi, o, code, Run(Vm32, code, c, m), WRun(fi.rc, w, k))
  {
    over := false;
    if p.items == [] {
      m, k, over, q := EndStep(fi, o, code, p, c, w);
    } else if p.items[0].Lab? {
      m, k, q := LabelStep(fi, o, code, p, c, w);
    } else if p.items[0].Plain? {
      if p.items[0].op.Return? {
        m, k, over, q := 1, |ReturnCode(fi)|, true, p;
        SeeAhead(fi, o, code, p, c, w);
        ReturnStep(fi, o, code, p, c, w);
      } else {
        m, k, q := PlainStep(fi, o, code, p, c, w);
      }
    } else if IsGoto(p.items[0]) {
      m, k, q := GotoAny(fi, o, code, p, c, w);
    } else {
      SeeAhead(fi, o, code, p, c, w);
      m, k, q := NestStep(fi, o, code, p, c, w);
    }
  }

  lemma NestStep(fi: FuncInfo, o: WState, code: seq<Inst>, p: Place, c: Conf, w: WConf) returns (m: nat, k: nat, q: Place)
    requires Ahead(fi, o, code, p, c, w) && DistinctLabels(code) && (p.items[0].Loop? || p.items[0].Short?)
    ensures Moves(fi, o, code, p, c, w, m, k, q)
  {
    hide Matched, LevelFacts, CtxOK, Run, WRun, FlatTail;
    if p.items[0].Loop? {
      m, q := 1, Inside(p);
      k := LoopStep(fi, o, code, p, c, w);
    } else {
      assert |c.s.stack| >= 1 by { ShortFacts(fi, code, p); }
      if (c.s.stack[|c.s.stack| - 1] != 0) == p.items[0].onTrue {
        m, k, q := 4, 3, Next(p);
        SkipOperand(fi, o, code, p, c, w);
      } else {
        m, k, q := 1, 1, Operand(p);
        EnterOperand(fi, o, code, p, c, w);
      }
    }
  }

  lemma GotoAny(fi: FuncInfo, o: WState, code: seq<Inst>, p: Place, c: Conf, w: WConf) returns (m: nat, k: nat, q: Place)
    requires Matched(fi, o, code, p, c, w) && DistinctLabels(code) && p.items != [] && IsGoto(p.items[0])
    ensures Moves(fi, o, code, p, c, w, m, k, q)
  {
    assert !p.f.dead;
    hide Matched, LevelFacts, CtxOK, Run, WRun, FlatTail, JumpView;
    SeeJump(fi, o, code, p, c, w);
    if p.items[0].Goto? {
      m := 2;
      k, q := GotoStep(fi, o, code, p, c, w);
      k := 1 + k;
    } else if p.items[0].GotoIf? {
      m, k, q := GotoIfStep(fi, o, code, p, c, w);
      k := 1 + k;
    } else {
      m, k, q := GotoIfNotStep(fi, o, code, p, c, w);
      k := 2 + k;
    }
  }

  /** The end of a level: of the function, or of a right operand; a loop's body never ends. */
  lemma EndStep(fi: FuncInfo, o: WState, code: seq<Inst>, p: Place, c: Conf, w: WConf)
    returns (m: nat, k: nat, over: bool, q: Place)
    requires Matched(fi, o, code, p, c, w) && DistinctLabels(code) && p.items == []
    ensures !over ==> Moves(fi, o, code, p, c, w, m, k, q)
    ensures over ==> m >= 1 && SameEnd(fi, o, code, Run(Vm32, code, c, m), WRun(fi.rc, w, k))
  {
    match p.ctx
    case Top(_) =>
      m, k, over, q := 1, 1, true, p;
      RunOne(code, c);
      WRunOne(fi.rc, w);
    case InLoop(_, _, _, _, _, _, _) =>
      LoopEndsDead(p.ctx);
      assert false;
    case InShort(_, _, _, _, _, _, _, _) =>
      over := false;
      q := OperandEnd(fi, o, code, p, c, w);
      m, k := 2, 1;
  }

  lemma LoopEndsDead(c: Ctx)
    requires c.InLoop? && c.body != [] && c.body[|c.body| - 1].Goto?
    ensures BodyEnd(c).dead
  {
    EndsDead(c.body, Targets(c.body), c.f);
  }

  lemma {:induction false} EndsDead(items: seq<Item>, T: set<int>, f: Flow)
    requires items != [] && items[|items| - 1].Goto?
    ensures FlowAll(items, T, f).dead
    decreases items
  {
    if |items| > 1 {
      EndsDead(items[1..], T, FlowItem(items[0], T, f));
    }
  }

  lemma MovesGives(fi: FuncInfo, o: WState, code: seq<Inst>, p: Place, c: Conf, w: WConf, m: nat, k: nat, q: Place)
    requires Moves(fi, o, code, p, c, w, m, k, q)
    ensures m >= 1 && (k >= 1 || |FlatTail(q)| < |FlatTail(p)|)
    ensures Matched(fi, o, code, q, Run(Vm32, code, c, m), WRun(fi.rc, w, k))
    ensures Run(Vm32, code, c, m).Running? && WRun(fi.rc, w, k).Code?
  {
  }

  /** If the labelled code ends, so does the structured code, with the same values. */
  lemma {:induction false} FlatEnds(fi: FuncInfo, o: WState, code: seq<Inst>, p: Place, c: Conf, w: WConf, n: nat) returns (k: nat)
    requires Matched(fi, o, code, p, c, w) && Wellformed(code) && fi.rc <= MAX_RESULTS
    requires !Run(Vm32, code, c, n).Running?
    ensures SameEnd(fi, o, code, Run(Vm32, code, c, n), WRun(fi.rc, w, k))
    decreases n
  {
    hide Matched, Run, WRun, Moves, FlatTail, Wellformed, Left, EndsInReturn;
    var m, j, over, q := SimStep(fi, o, code, p, c, w);
    if over {
      ResultUnique(Vm32, code, c, n, m);
      k := j;
    } else {
      MovesGives(fi, o, code, p, c, w, m, j, q);
      NotBefore(code, c, n, m);
      RunAdd(Vm32, code, c, m, n - m);
      var i := FlatEnds(fi, o, code, q, Run(Vm32, code, c, m), WRun(fi.rc, w, j), n - m);
      WRunAdd(fi.rc, w, j, i);
      k := j + i;
    }
  }

  lemma NotBefore(code: seq<Inst>, c: Conf, n: nat, m: nat)
    requires !Run(Vm32, code, c, n).Running? && Run(Vm32, code, c, m).Running?
    ensures m < n
  {
    if n <= m {
      RunAdd(Vm32, code, c, n, m - n);
      RunHalted(Vm32, code, Run(Vm32, code, c, n), m - n);
    }
  }

  lemma WNotBefore(rc: nat, w: WConf, n: nat, m: nat)
    requires !WRun(rc, w, n).Code? && WRun(rc, w, m).Code?
    ensures m < n
  {
    if n <= m {
      WRunAdd(rc, w, n, m - n);
      WRunHalted(rc, WRun(rc, w, n), m - n);
    }
  }

  /** If the structured code ends, so does the labelled code, with the same values. */
  lemma {:induction false} StructuredEnds(fi: FuncInfo, o: WState, code: seq<Inst>, p: Place, c: Conf, w: WConf, n: nat)
    returns (m: nat)
    requires Matched(fi, o, code, p, c, w) && Wellformed(code) && fi.rc <= MAX_RESULTS
    requires !WRun(fi.rc, w, n).Code?
    ensures SameEnd(fi, o, code, Run(Vm32, code, c, m), WRun(fi.rc, w, n))
    decreases n, |FlatTail(p)|
  {
    hide Matched, Run, WRun, Moves, FlatTail, Wellformed, Left, EndsInReturn;
    var k, over, q;
    m, k, over, q := SimStep(fi, o, code, p, c, w);
    if over {
      WEndsOnce(fi.rc, w, n, k);
    } else {
      MovesGives(fi, o, code, p, c, w, m, k, q);
      WNotBefore(fi.rc, w, n, k);
      WRunAdd(fi.rc, w, k, n - k);
      var i := StructuredEnds(fi, o, code, q, Run(Vm32, code, c, m), WRun(fi.rc, w, k), n - k);
      RunAdd(Vm32, code, c, m, i);
      m := m + i;
    }
  }

  lemma WEndsOnce(rc: nat, w: WConf, a: nat, b: nat)
    requires !WRun(rc, w, a).Code? && !WRun(rc, w, b).Code?
    ensures WRun(rc, w, a) == WRun(rc, w, b)
  {
    if a <= b {
      WRunAdd(rc, w, a, b - a);
      WRunHalted(rc, WRun(rc, w, a), b - a);
    } else {
      WRunAdd(rc, w, b, a - b);
      WRunHalted(rc, WRun(rc, w, b), a - b);
    }
  }
}
