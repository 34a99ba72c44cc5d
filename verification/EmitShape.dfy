/** Emission, on the shapes the lowering emits: the output is the linear form of the
    structured code, and the block stack is restored. */
module EmitShape {
  import opened Ir
  import opened Shape
  import opened Wasm
  import opened Structured
  import opened Stackify
  import opened Searches
  import opened ScanShape
  import opened SortShape

  // ----- the linear form of a level -----

  lemma {:induction false} ToksAppend(a: seq<W>, b: seq<W>)
    ensures ToksAll(a + b) == ToksAll(a) + ToksAll(b)
  {
    if a == [] {
      assert a + b == b;
    } else {
      assert (a + b)[0] == a[0] && (a + b)[1..] == a[1..] + b;
      ToksAppend(a[1..], b);
    }
  }

  lemma ToksOne(w: W)
    ensures ToksAll([w]) == Toks(w)
  {
    assert [w][1..] == [];
  }

  lemma {:induction false} ToksOps(os: seq<WOp>)
    ensures ToksAll(Ops(os)) == TOps(os)
    decreases |os|
  {
    if os != [] {
      assert Ops(os)[1..] == Ops(os[1..]);
      ToksOps(os[1..]);
    }
  }

  /** What one item contributes, the end of a block included. */
  function LinearItem(fi: FuncInfo, it: Item, rest: seq<Item>, T: set<int>, f: Flow, stk: seq<int>): seq<Tok> {
    if Closes(it, T) then [TEnd] + ToksAll(Resume(fi, FlowItem(it, T, f), rest)) else ToksAll(EmitItem(fi, it, f, stk))
  }

  /** A level after its blocks are open. */
  function Linear(fi: FuncInfo, items: seq<Item>, T: set<int>, f: Flow, outer: seq<int>): seq<Tok>
    decreases items
  {
    if items == [] then []
    else
      LinearItem(fi, items[0], items[1..], T, f, outer + Open(items, T))
      + Linear(fi, items[1..], T, FlowItem(items[0], T, f), outer)
  }

  function Blocks(n: nat): seq<Tok> {
    if n == 0 then [] else Blocks(n - 1) + [TBlock]
  }

  lemma {:induction false} WrapToks(fi: FuncInfo, acc: seq<W>, items: seq<Item>, T: set<int>, f: Flow, outer: seq<int>)
    ensures ToksAll(Wrap(fi, acc, items, T, f, outer))
         == Blocks(|Open(items, T)|) + (ToksAll(acc) + Linear(fi, items, T, f, outer))
    decreases items
  {
    hide EmitItem, FlowItem, Toks, Resume, Stackify.Reloads, Flatten;
    if items != [] {
      var f', rest := FlowItem(items[0], T, f), items[1..];
      var stk := outer + Open(items, T);
      if Closes(items[0], T) {
        WrapToks(fi, [Block(acc)] + Resume(fi, f', rest), rest, T, f', outer);
        ClosedToks(acc, Resume(fi, f', rest));
        Regroup5(Blocks(|Open(rest, T)|), [TBlock], ToksAll(acc), LinearItem(fi, items[0], items[1..], T, f, stk),
                 Linear(fi, rest, T, f', outer));
      } else {
        var e := EmitItem(fi, items[0], f, stk);
        WrapToks(fi, acc + e, rest, T, f', outer);
        ToksAppend(acc, e);
        Regroup3(Blocks(|Open(rest, T)|), ToksAll(acc), ToksAll(e), Linear(fi, rest, T, f', outer));
      }
    }
  }

  lemma ClosedToks(acc: seq<W>, r: seq<W>)
    ensures ToksAll([Block(acc)] + r) == [TBlock] + ToksAll(acc) + ([TEnd] + ToksAll(r))
  {
    ToksAppend([Block(acc)], r);
    ToksOne(Block(acc));
  }

  lemma Regroup3(a: seq<Tok>, b: seq<Tok>, c: seq<Tok>, d: seq<Tok>)
    ensures a + ((b + c) + d) == a + (b + (c + d))
  {
  }

  lemma Regroup5(a: seq<Tok>, b: seq<Tok>, c: seq<Tok>, d: seq<Tok>, e: seq<Tok>)
    ensures a + ((b + c + d) + e) == (a + b) + (c + (d + e))
  {
  }

  // ----- the emitter's state and the static view of it -----

  /** The emitter's block stack holds the labels stk; its flags say which are marked. */
  ghost predicate Agrees(g: Gen, stk: seq<int>, f: Flow) {
    && |g.blocks| == |stk|
    && (forall k :: 0 <= k < |stk| ==>
          g.blocks[k].lab == stk[k] && (g.blocks[k].live <==> stk[k] in f.marked))
    && g.dead == f.dead
  }

  ghost predicate OnceEach(stk: seq<int>) {
    forall i, j :: 0 <= i < j < |stk| && stk[i] == stk[j] ==> stk[i] == -1
  }

  lemma {:induction false} SameBlockDepth(blocks: seq<Ctrl>, stk: seq<int>, l: int)
    requires |blocks| == |stk| && forall k :: 0 <= k < |stk| ==> blocks[k].lab == stk[k]
    ensures BlockDepth(blocks, l) == Depth(stk, l)
    decreases |stk|
  {
    if stk != [] {
      SameBlockDepth(blocks[..|stk| - 1], stk[..|stk| - 1], l);
    }
  }

  lemma AgreesPush(g: Gen, stk: seq<int>, f: Flow, kind: CtrlKind, l: int, t: Tok)
    requires Agrees(g, stk, f) && l !in f.marked
    ensures Agrees(OpenBlockFor(g, kind, l, t), stk + [l], f)
  {
  }

  lemma AgreesPop(g: Gen, stk: seq<int>, l: int, f: Flow)
    requires Agrees(g, stk + [l], f)
    ensures g.blocks != [] && Agrees(PopBlock(g), stk, f) && Drop2(g) == PopBlock(g)
    ensures g.blocks[|g.blocks| - 1].live <==> l in f.marked
  {
    forall k | 0 <= k < |stk|
      ensures stk[k] == (stk + [l])[k]
    {
    }
    assert (stk + [l])[|stk|] == l;
  }

  lemma AgreesMark(g: Gen, stk: seq<int>, f: Flow, l: int, buf: seq<Tok>, dead: bool)
    requires Agrees(g, stk, f) && OnceEach(stk) && l in stk && l != -1
    ensures Depth(stk, l) >= 0
    ensures Agrees(Gen(buf, MarkLive(g.blocks, Depth(stk, l)), dead), stk, Flow(dead, f.marked + {l}))
  {
    var k := |stk| - 1 - Depth(stk, l);
    assert stk[k] == l;
    forall i | 0 <= i < |stk| && i != k
      ensures stk[i] != l
    {
      if i < k {
        assert stk[i] != stk[k];
      } else {
        assert stk[k] != stk[i];
      }
    }
  }

  /** Opening the sorted targets of a level. */
  lemma {:induction false} OpensAll(g: Gen, ts: seq<FwdTarget>, labs: seq<int>, outer: seq<int>, f: Flow)
    requires |ts| == |labs| && forall i :: 0 <= i < |ts| ==> ts[i].lab == labs[i]
    requires Agrees(g, outer, f) && forall l :: l in labs ==> l !in f.marked
    ensures Agrees(OpenAll(g, ts), outer + labs, f)
    ensures OpenAll(g, ts).buf == g.buf + Blocks(|ts|)
    decreases |ts|
  {
    if ts == [] {
      assert outer + labs == outer;
    } else {
      var g' := OpenBlockFor(g, CtrlBlock, ts[0].lab, TBlock);
      AgreesPush(g, outer, f, CtrlBlock, labs[0], TBlock);
      OpensAll(g', ts[1..], labs[1..], outer + [labs[0]], f);
      assert outer + [labs[0]] + labs[1..] == outer + labs;
      BlocksFront(|ts|);
      assert g'.buf + Blocks(|ts| - 1) == g.buf + ([TBlock] + Blocks(|ts| - 1));
    }
  }

  lemma {:induction false} BlocksFront(n: nat)
    requires n > 0
    ensures Blocks(n) == [TBlock] + Blocks(n - 1)
  {
    if n > 1 {
      BlocksFront(n - 1);
    }
  }

  // ----- what holds at every item of a level -----

  ghost predicate Ready(items: seq<Item>, T: set<int>, loop: LoopOf, K: Kinds, outer: seq<int>, f: Flow) {
    var labs := CodeLabels(Flatten(items));
    && LevelOK(items, loop) && DistinctLabels(Flatten(items))
    && Classified(items, K) && LoopKnown(items, loop, K)
    && Targets(items) <= T && T * TopLabs(items) <= K.targets
    && (forall l :: l in labs ==> l >= 0 && l !in outer)
    && (forall l :: l in labs && l in f.marked ==> l in TopLabs(items) && l in T)
    && OnceEach(outer) && -1 !in f.marked
    && (loop.Some? ==>
          && loop.value.0 in outer && loop.value.1 in outer
          && loop.value.0 >= 0 && loop.value.1 >= 0 && loop.value.1 !in K.headers)
  }

  /** Branches inside an item mark labels defined in it, forward targets, or loop labels. */
  lemma {:induction false} MarksItem(it: Item, rest: seq<Item>, loop: LoopOf, T: set<int>, f: Flow, l: int)
    requires ItemOK(it, rest, loop) && l in FlowItem(it, T, f).marked && l !in f.marked
    ensures l in CodeLabels(FlatItem(it)) || (IsGoto(it) && l == it.l)
    decreases it
  {
    if it.Loop? {
      LabelsAppend([Label(it.head)] + Flatten(it.body), [Label(it.brk)]);
      LabelsAppend([Label(it.head)], Flatten(it.body));
      MarksLevel(it.body, Some((it.head, it.brk)), Targets(it.body), f, l);
    }
  }

  lemma {:induction false} MarksLevel(items: seq<Item>, loop: LoopOf, T: set<int>, f: Flow, l: int)
    requires LevelOK(items, loop) && l in FlowAll(items, T, f).marked && l !in f.marked
    ensures l in CodeLabels(Flatten(items)) || (loop.Some? && (l == loop.value.0 || l == loop.value.1))
    decreases items
  {
    var it, rest := items[0], items[1..];
    var f' := FlowItem(it, T, f);
    LabelsAppend(FlatItem(it), Flatten(rest));
    TopInCode(rest);
    if l in f'.marked {
      MarksItem(it, rest, loop, T, f, l);
    } else {
      MarksLevel(rest, loop, T, f', l);
    }
  }

  lemma ReadyRest(items: seq<Item>, T: set<int>, loop: LoopOf, K: Kinds, outer: seq<int>, f: Flow)
    requires items != [] && Ready(items, T, loop, K, outer, f)
    ensures Ready(items[1..], T, loop, K, outer, FlowItem(items[0], T, f))
  {
    var it, rest, f' := items[0], items[1..], FlowItem(items[0], T, f);
    LevelHead(items, loop, K);
    LabelsAppend(FlatItem(it), Flatten(rest));
    DistinctParts(FlatItem(it), Flatten(rest));
    TopInCode(rest);
    HeadLabelFresh(items);
    assert TopLabs(items) == (if it.Lab? then {it.l} else {}) + TopLabs(rest);
    forall l | l in CodeLabels(Flatten(rest)) && l in f'.marked
      ensures l in TopLabs(rest) && l in T
    {
      if l !in f.marked {
        MarksItem(it, rest, loop, T, f, l);
      }
      if it.Lab? {
        HasCodeLabel(FlatItem(it), 0);
      }
    }
    NoMinusOne(items, T, loop, K, outer, f);
  }

  lemma NoMinusOne(items: seq<Item>, T: set<int>, loop: LoopOf, K: Kinds, outer: seq<int>, f: Flow)
    requires items != [] && Ready(items, T, loop, K, outer, f)
    ensures -1 !in FlowItem(items[0], T, f).marked
  {
    var it, rest := items[0], items[1..];
    LabelsAppend(FlatItem(it), Flatten(rest));
    TopInCode(rest);
    if -1 in FlowItem(it, T, f).marked {
      MarksItem(it, rest, loop, T, f, -1);
    }
  }

  // ----- one instruction at a time -----

  lemma EmitPlain(fi: FuncInfo, op: Inst, tail: seq<Inst>, at: nat, K: Kinds, excluded: set<int>, g: Gen)
    requires !op.Label? && !IsJump(op)
    ensures EmitFrom(fi, [op] + tail, at, K, excluded, g)
         == EmitFrom(fi, tail, at + 1, K, excluded,
                     if g.dead then g else Gen(g.buf + TOps(PlainCode(fi, op)), g.blocks, op.Return?))
  {
    assert ([op] + tail)[1..] == tail;
  }

  /** A label that is no loop head and has no open block. */
  lemma EmitSkip(fi: FuncInfo, l: int, tail: seq<Inst>, at: nat, K: Kinds, excluded: set<int>, g: Gen)
    requires l !in K.headers && BlockDepth(g.blocks, l) == -1
    ensures EmitFrom(fi, [Label(l)] + tail, at, K, excluded, g) == EmitFrom(fi, tail, at + 1, K, excluded, g)
  {
    assert ([Label(l)] + tail)[1..] == tail;
  }

  lemma EmitClose(fi: FuncInfo, l: int, tail: seq<Inst>, at: nat, K: Kinds, excluded: set<int>, g: Gen)
    requires l !in K.headers && l in K.targets && l !in excluded && BlockDepth(g.blocks, l) >= 0
    ensures EmitFrom(fi, [Label(l)] + tail, at, K, excluded, g)
         == EmitFrom(fi, tail, at + 1, K, excluded, CloseLabel(fi, g, tail))
  {
    assert ([Label(l)] + tail)[1..] == tail;
  }

  function JumpGen(g: Gen, h: Inst): Gen
    requires IsJump(h)
  {
    BranchGen(g, h.l, if h.JmpIfNot? then [I32Eqz] else [], !h.Jmp?)
  }

  lemma EmitJump(fi: FuncInfo, h: Inst, tail: seq<Inst>, at: nat, K: Kinds, excluded: set<int>, g: Gen)
    requires IsJump(h) && (!h.Jmp? && !g.dead ==> DetectShort([h] + tail) == None)
    ensures EmitFrom(fi, [h] + tail, at, K, excluded, g) == EmitFrom(fi, tail, at + 1, K, excluded, JumpGen(g, h))
  {
    assert ([h] + tail)[1..] == tail;
  }

  /** The code of a dead short circuit: nothing is emitted. */
  lemma {:induction false} EmitDead(fi: FuncInfo, items: seq<Item>, tail: seq<Inst>, at: nat, K: Kinds,
                                    excluded: set<int>, g: Gen)
    requires RhsOK(items) && g.dead && ShortLabels(items) !! K.headers
    requires forall l :: l in ShortLabels(items) ==> BlockDepth(g.blocks, l) == -1
    ensures EmitFrom(fi, Flatten(items) + tail, at, K, excluded, g)
         == EmitFrom(fi, tail, at + |Flatten(items)|, K, excluded, g)
    decreases items
  {
    hide EmitFrom, BlockDepth, RhsOK, ShortLabels, Flatten, ShortsOf, RhsItemOK, FlatItem;
    if items == [] {
      FlatEmpty();
      assert [] + tail == tail;
    } else {
      RhsTail(items);
      EmitDeadItem(fi, items[0], Flatten(items[1..]) + tail, at, K, excluded, g);
      FlatHead(items, tail);
      EmitDead(fi, items[1..], tail, at + |FlatItem(items[0])|, K, excluded, g);
    }
  }

  lemma FlatEmpty()
    ensures Flatten([]) == []
  {
  }

  lemma FlatHead(items: seq<Item>, tail: seq<Inst>)
    requires items != []
    ensures Flatten(items) + tail == FlatItem(items[0]) + (Flatten(items[1..]) + tail)
    ensures |Flatten(items)| == |FlatItem(items[0])| + |Flatten(items[1..])|
  {
    FlattenHead(items);
    hide FlatItem, Flatten;
    Assoc(FlatItem(items[0]), Flatten(items[1..]), tail);
  }

  lemma FlattenHead(items: seq<Item>)
    requires items != []
    ensures Flatten(items) == FlatItem(items[0]) + Flatten(items[1..])
  {
    hide FlatItem;
  }

  lemma {:induction false} EmitDeadItem(fi: FuncInfo, it: Item, tail: seq<Inst>, at: nat, K: Kinds,
                                        excluded: set<int>, g: Gen)
    requires RhsItemOK(it) && g.dead && ShortsOf(it) !! K.headers
    requires forall l :: l in ShortsOf(it) ==> BlockDepth(g.blocks, l) == -1
    ensures EmitFrom(fi, FlatItem(it) + tail, at, K, excluded, g)
         == EmitFrom(fi, tail, at + |FlatItem(it)|, K, excluded, g)
    decreases it, 1
  {
    hide EmitFrom, BlockDepth, RhsOK, ShortLabels, Flatten;
    if it.Short? {
      EmitDeadShort(fi, it, tail, at, K, excluded, g);
    } else {
      PlainFlat(it);
      EmitPlain(fi, it.op, tail, at, K, excluded, g);
    }
  }

  lemma PlainFlat(it: Item)
    requires it.Plain?
    ensures FlatItem(it) == [it.op]
  {
  }

  lemma {:induction false} EmitDeadShort(fi: FuncInfo, it: Item, tail: seq<Inst>, at: nat, K: Kinds,
                                         excluded: set<int>, g: Gen)
    requires it.Short? && RhsOK(it.rhs) && g.dead && ShortsOf(it) !! K.headers
    requires forall l :: l in ShortsOf(it) ==> BlockDepth(g.blocks, l) == -1
    ensures EmitFrom(fi, FlatItem(it) + tail, at, K, excluded, g)
         == EmitFrom(fi, tail, at + |FlatItem(it)|, K, excluded, g)
    decreases it, 0
  {
    hide EmitFrom, BlockDepth, RhsOK, ShortLabels, DetectShort, JumpGen;
    var h := if it.onTrue then JmpIf(it.tgt) else JmpIfNot(it.tgt);
    var t4 := [Label(it.end)] + tail;
    var t3 := [ConstBool(it.k)] + t4;
    var t2 := [Label(it.tgt)] + t3;
    var t1 := [Jmp(it.end)] + t2;
    var n := |Flatten(it.rhs)|;
    ShortSplit(it, tail, h, t1);
    DeadJump(g, h);
    DeadJump(g, Jmp(it.end));
    EmitJump(fi, h, Flatten(it.rhs) + t1, at, K, excluded, g);
    EmitDead(fi, it.rhs, t1, at + 1, K, excluded, g);
    EmitJump(fi, Jmp(it.end), t2, at + 1 + n, K, excluded, g);
    EmitSkip(fi, it.tgt, t3, at + 2 + n, K, excluded, g);
    EmitPlain(fi, ConstBool(it.k), t4, at + 3 + n, K, excluded, g);
    EmitSkip(fi, it.end, tail, at + 4 + n, K, excluded, g);
  }

  lemma DeadJump(g: Gen, h: Inst)
    requires IsJump(h) && g.dead
    ensures JumpGen(g, h) == g
  {
  }

  lemma ShortSplit(it: Item, tail: seq<Inst>, h: Inst, t1: seq<Inst>)
    requires it.Short? && h == (if it.onTrue then JmpIf(it.tgt) else JmpIfNot(it.tgt))
    requires t1 == [Jmp(it.end)] + ([Label(it.tgt)] + ([ConstBool(it.k)] + ([Label(it.end)] + tail)))
    ensures FlatItem(it) + tail == [h] + (Flatten(it.rhs) + t1)
    ensures |FlatItem(it)| == |Flatten(it.rhs)| + 5
  {
    assert t1 == [Jmp(it.end), Label(it.tgt), ConstBool(it.k), Label(it.end)] + tail;
  }

  // ----- one item at a time -----

  /** Before and after one item of a level. */
  ghost predicate Emits(fi: FuncInfo, items: seq<Item>, T: set<int>, at: nat, K: Kinds, excluded: set<int>,
                        outer: seq<int>, f: Flow, g: Gen, g': Gen)
    requires items != []
  {
    && EmitFrom(fi, Flatten(items), at, K, excluded, g)
       == EmitFrom(fi, Flatten(items[1..]), at + |FlatItem(items[0])|, K, excluded, g')
    && Agrees(g', outer + Open(items[1..], T), FlowItem(items[0], T, f))
    && g'.buf == g.buf + LinearItem(fi, items[0], items[1..], T, f, outer + Open(items, T))
  }

  lemma EmitsPlain(fi: FuncInfo, items: seq<Item>, T: set<int>, loop: LoopOf, at: nat, K: Kinds, excluded: set<int>,
                   outer: seq<int>, f: Flow, g: Gen) returns (g': Gen)
    requires items != [] && items[0].Plain? && Ready(items, T, loop, K, outer, f)
    requires Agrees(g, outer + Open(items, T), f)
    ensures Emits(fi, items, T, at, K, excluded, outer, f, g, g')
  {
    hide EmitFrom, Ready, PlainCode, Agrees;
    var op := items[0].op;
    PlainIs(items, T, loop, K, outer, f);
    OpenSame(items, T);
    PlainFlat(items[0]);
    EmitPlain(fi, op, Flatten(items[1..]), at, K, excluded, g);
    g' := if g.dead then g else Gen(g.buf + TOps(PlainCode(fi, op)), g.blocks, op.Return?);
    ToksOps(PlainCode(fi, op));
    PlainAgrees(g, outer + Open(items, T), f, g', op);
    assert g.buf + [] == g.buf;
  }

  lemma OpenSame(items: seq<Item>, T: set<int>)
    requires items != [] && !Closes(items[0], T)
    ensures Open(items, T) == Open(items[1..], T)
  {
  }

  lemma PlainIs(items: seq<Item>, T: set<int>, loop: LoopOf, K: Kinds, outer: seq<int>, f: Flow)
    requires items != [] && items[0].Plain? && Ready(items, T, loop, K, outer, f)
    ensures !items[0].op.Label? && !IsJump(items[0].op)
  {
    assert ItemOK(items[0], items[1..], loop);
  }

  lemma PlainAgrees(g: Gen, stk: seq<int>, f: Flow, g': Gen, op: Inst)
    requires Agrees(g, stk, f)
    requires g'.blocks == g.blocks && g'.dead == (g.dead || op.Return?)
    ensures Agrees(g', stk, FlowItem(Plain(op), {}, f)) && g.dead == f.dead
  {
  }

  // ----- labels -----

  lemma EmitsLabel(fi: FuncInfo, items: seq<Item>, T: set<int>, loop: LoopOf, at: nat, K: Kinds, excluded: set<int>,
                   outer: seq<int>, f: Flow, g: Gen) returns (g': Gen)
    requires items != [] && items[0].Lab? && Ready(items, T, loop, K, outer, f)
    requires Agrees(g, outer + Open(items, T), f) && excluded !! TopLabs(items)
    ensures Emits(fi, items, T, at, K, excluded, outer, f, g, g')
  {
    hide EmitFrom, Ready, Agrees, BlockDepth, Depth, CloseLabel;
    var l, rest := items[0].l, Flatten(items[1..]);
    LabelFacts(items, T, loop, K, outer, f);
    LabelDepth(items, T, loop, K, outer, f, g);
    if l in T {
      EmitClose(fi, l, rest, at, K, excluded, g);
      g' := CloseLabel(fi, g, rest);
      Closed(fi, items, T, outer, f, g, rest);
    } else {
      OpenSame(items, T);
      EmitSkip(fi, l, rest, at, K, excluded, g);
      g' := g;
      assert g.buf + [] == g.buf;
    }
  }

  lemma LabelFacts(items: seq<Item>, T: set<int>, loop: LoopOf, K: Kinds, outer: seq<int>, f: Flow)
    requires items != [] && items[0].Lab? && Ready(items, T, loop, K, outer, f)
    ensures items[0].l !in K.headers && items[0].l !in outer && items[0].l !in TopLabs(items[1..])
    ensures items[0].l in TopLabs(items) && (items[0].l in T ==> items[0].l in K.targets)
  {
    assert ItemOK(items[0], items[1..], loop) && ClassifiedItem(items[0], K);
    HeadLabelFresh(items);
    assert FlatItem(items[0]) == [Label(items[0].l)];
    HasCodeLabel(Flatten(items), 0);
  }

  /** The block a label closes is the innermost one; other labels have no block. */
  lemma LabelDepth(items: seq<Item>, T: set<int>, loop: LoopOf, K: Kinds, outer: seq<int>, f: Flow, g: Gen)
    requires items != [] && items[0].Lab? && Ready(items, T, loop, K, outer, f)
    requires Agrees(g, outer + Open(items, T), f)
    ensures BlockDepth(g.blocks, items[0].l) == if items[0].l in T then 0 else -1
  {
    hide Ready;
    var l, stk := items[0].l, outer + Open(items, T);
    LabelFacts(items, T, loop, K, outer, f);
    SameBlockDepth(g.blocks, stk, l);
    if l in T {
      assert stk[|stk| - 1] == l;
    } else {
      OpenSame(items, T);
      assert l !in stk;
    }
  }

  /** Closing a block at a live or dead label. */
  lemma Closed(fi: FuncInfo, items: seq<Item>, T: set<int>, outer: seq<int>, f: Flow, g: Gen, rest: seq<Inst>)
    requires items != [] && Closes(items[0], T) && Agrees(g, outer + Open(items, T), f)
    requires rest == Flatten(items[1..])
    ensures g.blocks != []
    ensures var g', f' := CloseLabel(fi, g, rest), FlowItem(items[0], T, f);
      && Agrees(g', outer + Open(items[1..], T), f')
      && g'.buf == g.buf + ([TEnd] + ToksAll(Resume(fi, f', items[1..])))
  {
    var l, stk := items[0].l, outer + Open(items[1..], T);
    assert outer + Open(items, T) == stk + [l];
    AgreesPop(g, stk, l, f);
    var live := l in f.marked;
    var f' := FlowItem(items[0], T, f);
    SettleSim(PopBlock(g), stk, f, live);
    ToksOne(Op(Unreachable));
    ToksOne(Op(LGet(fi.params)));
    AgreesPut(Settle(PopBlock(g), live), stk, f', [TOp(LGet(fi.params))]);
    assert g.buf + [TEnd] + ToksAll(Resume(fi, f', items[1..])) == g.buf + ([TEnd] + ToksAll(Resume(fi, f', items[1..])));
  }

  lemma SettleSim(g: Gen, stk: seq<int>, f: Flow, live: bool)
    requires Agrees(g, stk, f)
    ensures var f' := Flow(f.dead && !live, f.marked);
      Agrees(Settle(g, live), stk, f') && Settle(g, live).buf == g.buf + ToksAll(Dead(f'))
  {
    ToksOne(Op(Unreachable));
    assert g.buf + [] == g.buf;
  }

  // ----- jumps -----

  lemma EmitsGoto(fi: FuncInfo, items: seq<Item>, T: set<int>, loop: LoopOf, at: nat, K: Kinds, excluded: set<int>,
                  outer: seq<int>, f: Flow, g: Gen) returns (g': Gen)
    requires items != [] && IsGoto(items[0]) && Ready(items, T, loop, K, outer, f)
    requires Agrees(g, outer + Open(items, T), f)
    ensures Emits(fi, items, T, at, K, excluded, outer, f, g, g')
  {
    hide EmitFrom, Ready, Agrees, DetectShort, JumpGen;
    var it, stk := items[0], outer + Open(items, T);
    var h := GotoInst(it);
    GotoFacts(items, T, loop, K, outer, f);
    OpenSame(items, T);
    GotoFlat(it);
    EmitJump(fi, h, Flatten(items[1..]), at, K, excluded, g);
    g' := JumpGen(g, h);
    Jumped(fi, it, T, stk, f, g, h);
  }

  lemma GotoFlat(it: Item)
    requires IsGoto(it)
    ensures FlatItem(it) == [GotoInst(it)]
  {
  }

  lemma GotoFacts(items: seq<Item>, T: set<int>, loop: LoopOf, K: Kinds, outer: seq<int>, f: Flow)
    requires items != [] && IsGoto(items[0]) && Ready(items, T, loop, K, outer, f)
    ensures items[0].l in outer + Open(items, T) && items[0].l >= 0
    ensures !items[0].Goto? ==> DetectShort([GotoInst(items[0])] + Flatten(items[1..])) == None
    ensures OnceEach(outer + Open(items, T))
  {
    var it, rest := items[0], items[1..];
    LevelHead(items, loop, K);
    GotoSearch(it, rest, loop, K, GotoInst(it));
    LabelsAppend(FlatItem(it), Flatten(rest));
    TopInCode(rest);
    OpenOnce(items, T, loop, K, outer, f);
  }

  lemma {:induction false} OpenOnceAlone(items: seq<Item>, T: set<int>)
    requires DistinctLabels(Flatten(items))
    ensures forall i, j :: 0 <= i < j < |Open(items, T)| ==> Open(items, T)[i] != Open(items, T)[j]
    decreases items
  {
    if items != [] {
      DistinctParts(FlatItem(items[0]), Flatten(items[1..]));
      OpenOnceAlone(items[1..], T);
      HeadLabelFresh(items);
      hide DistinctLabels, Flatten, FlatItem;
      var o := Open(items[1..], T);
      forall i | 0 <= i < |o|
        ensures o[i] in TopLabs(items[1..])
      {
      }
    }
  }

  lemma OpenOnce(items: seq<Item>, T: set<int>, loop: LoopOf, K: Kinds, outer: seq<int>, f: Flow)
    requires Ready(items, T, loop, K, outer, f)
    ensures OnceEach(outer + Open(items, T))
  {
    OpenOnceAlone(items, T);
    TopInCode(items);
    var o, s := Open(items, T), outer + Open(items, T);
    assert forall k :: 0 <= k < |o| ==> o[k] in TopLabs(items);
    forall i, j | 0 <= i < j < |s|
      ensures s[i] != s[j] || s[i] == -1
    {
      assert s[i] == (if i < |outer| then outer[i] else o[i - |outer|]);
      assert s[j] == (if j < |outer| then outer[j] else o[j - |outer|]);
    }
  }

  /** A branch finds its block, which is marked. */
  lemma Jumped(fi: FuncInfo, it: Item, T: set<int>, stk: seq<int>, f: Flow, g: Gen, h: Inst)
    requires IsGoto(it) && h == GotoInst(it) && Agrees(g, stk, f) && OnceEach(stk) && it.l in stk && it.l >= 0
    ensures Agrees(JumpGen(g, h), stk, FlowItem(it, T, f))
    ensures JumpGen(g, h).buf == g.buf + ToksAll(EmitItem(fi, it, f, stk))
  {
    SameBlockDepth(g.blocks, stk, it.l);
    AgreesMark(g, stk, f, it.l, JumpGen(g, h).buf, it.Goto?);
    hide MarkLive, Depth, OnceEach, BlockDepth;
    if f.dead {
      assert g.buf + [] == g.buf;
    } else {
      var d := BranchTo(stk, it.l);
      ToksOne(Op(if it.Goto? then Br(d) else BrIf(d)));
      ToksAppend([Op(I32Eqz)], [Op(BrIf(d))]);
      ToksOne(Op(I32Eqz));
    }
  }

  // ----- short circuits and loops -----

  /** The emitter inside a nested construct, and after it. */
  lemma EmitShort(fi: FuncInfo, it: Item, tail: seq<Inst>, at: nat, K: Kinds, excluded: set<int>, g: Gen)
    requires it.Short? && !g.dead && DistinctLabels(FlatItem(it) + tail)
    ensures var g1 := OpenBlockFor(g, CtrlIf, -1, TIf);
      var c := TOp(I32Const(it.k));
      var g2 := EmitRange(fi, Flatten(it.rhs), at + 1, K, if it.onTrue then Put(g1, [c, TElse]) else g1);
      EmitFrom(fi, FlatItem(it) + tail, at, K, excluded, g)
      == EmitFrom(fi, tail, at + |FlatItem(it)|, K, excluded, Drop2(if it.onTrue then g2 else Put(g2, [TElse, c])))
  {
    hide EmitRange, EmitFrom, DetectShort, Flatten, DistinctLabels, FlatItem;
    ShortFound(it, tail);
    ShortSize(it);
    EmitDetected(fi, FlatItem(it) + tail, at, K, excluded, g, |Flatten(it.rhs)| + 2, it.end);
  }

  lemma ShortSize(it: Item)
    requires it.Short?
    ensures |FlatItem(it)| == |Flatten(it.rhs)| + 5
  {
  }

  lemma EmitLoop(fi: FuncInfo, it: Item, rest: seq<Item>, loop: LoopOf, at: nat, K: Kinds, excluded: set<int>, g: Gen)
    requires it.Loop? && ItemOK(it, rest, loop) && LevelOK(rest, loop)
    requires DistinctLabels(FlatItem(it) + Flatten(rest))
    requires loop.Some? ==> it.head != loop.value.0 && it.head != loop.value.1
    requires it.head in K.headers
    ensures var g1 := OpenBlockFor(OpenBlockFor(g, CtrlBlock, it.brk, TBlock), CtrlLoop, it.head, TLoop);
      var g2 := Drop2(EmitRange(fi, Flatten(it.body), at + 1, K, g1));
      var live := |g2.blocks| >= 1 && g2.blocks[|g2.blocks| - 1].live;
      EmitFrom(fi, FlatItem(it) + Flatten(rest), at, K, excluded, g)
      == EmitFrom(fi, [Label(it.brk)] + Flatten(rest), at + |FlatItem(it)| - 1, K, excluded, Settle(Drop2(g2), live))
  {
    hide EmitRange, LevelOK, DistinctLabels, Flatten, FindBreak, LoopLength, EmitFrom, OpenBlockFor, Drop2, Settle, ItemOK;
    LoopFound(it, rest, loop);
    EmitHeader(fi, FlatItem(it) + Flatten(rest), at, K, excluded, g, it.brk, |FlatItem(it)| - 1);
  }

  /** A whole range: its blocks are opened, closed again, and the code between is that of the level. */
  lemma {:induction false} EmitsRange(fi: FuncInfo, items: seq<Item>, loop: LoopOf, at: nat, K: Kinds,
                                      outer: seq<int>, f: Flow, g: Gen) returns (g': Gen)
    requires Ready(items, Targets(items), loop, K, outer, f)
    requires CodeLabels(Flatten(items)) !! f.marked && Agrees(g, outer, f)
    ensures g' == EmitRange(fi, Flatten(items), at, K, g)
    ensures Agrees(g', outer, FlowAll(items, Targets(items), f))
    ensures g'.buf == g.buf + ToksAll(Wrap(fi, [], items, Targets(items), f, outer))
    decreases items, 4
  {
    hide Agrees, Wrap, Linear, FlowAll, EmitFrom, OpenAll, PreScan, DistinctLabels, Classified, LevelOK, LoopKnown, Targets;
    var T := Targets(items);
    ScanLevel(items, loop, at, K, Scan([], {}));
    SortedIsOpen(items, loop, K, at);
    var ts := OpenAt(items, T, at);
    var x := ShortLabels(items);
    assert {} + x == x;
    TopInCode(items);
    OpensAll(g, ts, Open(items, T), outer, f);
    var g1 := OpenAll(g, ts);
    NotExcluded(items);
    g' := EmitsAll(fi, items, T, loop, at, K, x, outer, f, g1);
    WrapToks(fi, [], items, T, f, outer);
    RegroupToks(g.buf, Blocks(|ts|), Linear(fi, items, T, f, outer));
  }

  lemma RegroupToks(a: seq<Tok>, b: seq<Tok>, c: seq<Tok>)
    ensures a + b + c == a + (b + ([] + c))
  {
  }

  /** No label of the level itself is excluded. */
  lemma {:induction false} NotExcluded(items: seq<Item>)
    requires DistinctLabels(Flatten(items))
    ensures ShortLabels(items) !! TopLabs(items)
    decreases items
  {
    if items != [] {
      DistinctParts(FlatItem(items[0]), Flatten(items[1..]));
      NotExcluded(items[1..]);
      ShortsInItem(items[0]);
      ShortInCode(items[1..]);
      TopInCode(items[1..]);
      if items[0].Lab? {
        HasCodeLabel(FlatItem(items[0]), 0);
      }
    }
  }

  lemma {:induction false} EmitsAll(fi: FuncInfo, items: seq<Item>, T: set<int>, loop: LoopOf, at: nat, K: Kinds,
                                    excluded: set<int>, outer: seq<int>, f: Flow, g: Gen) returns (g': Gen)
    requires Ready(items, T, loop, K, outer, f)
    requires Agrees(g, outer + Open(items, T), f) && excluded !! TopLabs(items)
    ensures g' == EmitFrom(fi, Flatten(items), at, K, excluded, g)
    ensures Agrees(g', outer, FlowAll(items, T, f))
    ensures g'.buf == g.buf + Linear(fi, items, T, f, outer)
    decreases items, 3
  {
    hide Agrees, Ready, LinearItem, FlowItem, TopLabs, FlatItem, EmitFrom, Flatten, Open, Linear, FlowAll;
    if items == [] {
      g' := g;
      EmitsNothing(fi, T, at, K, excluded, outer, f, g);
    } else {
      var f', rest := FlowItem(items[0], T, f), items[1..];
      TopRest(items);
      var g1 := EmitsItem(fi, items, T, loop, at, K, excluded, outer, f, g);
      ReadyRest(items, T, loop, K, outer, f);
      g' := EmitsAll(fi, rest, T, loop, at + |FlatItem(items[0])|, K, excluded, outer, f', g1);
      LinearHead(fi, items, T, f, outer, g.buf);
    }
  }

  lemma EmitsNothing(fi: FuncInfo, T: set<int>, at: nat, K: Kinds, excluded: set<int>, outer: seq<int>, f: Flow, g: Gen)
    ensures g == EmitFrom(fi, Flatten([]), at, K, excluded, g)
    ensures outer + Open([], T) == outer && FlowAll([], T, f) == f
    ensures g.buf == g.buf + Linear(fi, [], T, f, outer)
  {
    assert outer + [] == outer && g.buf + [] == g.buf;
  }

  lemma LinearHead(fi: FuncInfo, items: seq<Item>, T: set<int>, f: Flow, outer: seq<int>, buf: seq<Tok>)
    requires items != []
    ensures var f' := FlowItem(items[0], T, f);
      && buf + LinearItem(fi, items[0], items[1..], T, f, outer + Open(items, T)) + Linear(fi, items[1..], T, f', outer)
         == buf + Linear(fi, items, T, f, outer)
      && FlowAll(items, T, f) == FlowAll(items[1..], T, f')
  {
  }

  lemma TopRest(items: seq<Item>)
    requires items != []
    ensures TopLabs(items[1..]) <= TopLabs(items)
  {
  }

  lemma {:induction false} EmitsItem(fi: FuncInfo, items: seq<Item>, T: set<int>, loop: LoopOf, at: nat, K: Kinds,
                                     excluded: set<int>, outer: seq<int>, f: Flow, g: Gen) returns (g': Gen)
    requires items != [] && Ready(items, T, loop, K, outer, f)
    requires Agrees(g, outer + Open(items, T), f) && excluded !! TopLabs(items)
    ensures Emits(fi, items, T, at, K, excluded, outer, f, g, g')
    decreases items, 2
  {
    hide Ready, Agrees, Emits, Open, TopLabs;
    match items[0]
    case Plain(_) => g' := EmitsPlain(fi, items, T, loop, at, K, excluded, outer, f, g);
    case Lab(_) => g' := EmitsLabel(fi, items, T, loop, at, K, excluded, outer, f, g);
    case Loop(_, _, _) => g' := EmitsLoop(fi, items, T, loop, at, K, excluded, outer, f, g);
    case Short(_, _, _, _, _) => g' := EmitsShort(fi, items, T, loop, at, K, excluded, outer, f, g);
    case _ => g' := EmitsGoto(fi, items, T, loop, at, K, excluded, outer, f, g);
  }

  // ----- a short circuit -----

  /** The right operand is a level of its own inside the `if`. */
  lemma OperandReady(items: seq<Item>, T: set<int>, loop: LoopOf, K: Kinds, outer: seq<int>, f: Flow)
    requires items != [] && items[0].Short? && Ready(items, T, loop, K, outer, f)
    ensures var it, stk := items[0], outer + Open(items, T);
      && RhsOK(it.rhs) && DistinctLabels(FlatItem(it) + Flatten(items[1..])) && ShortsOf(it) !! K.headers
      && Ready(it.rhs, {}, None, K, stk + [-1], f) && Targets(it.rhs) == {}
      && CodeLabels(Flatten(it.rhs)) !! f.marked
      && (forall l :: l in ShortsOf(it) ==> l !in stk)
  {
    var it, rest := items[0], items[1..];
    var stk := outer + Open(items, T);
    LevelHead(items, loop, K);
    RhsLevel(it.rhs, {}, f, 0);
    OpenOnce(items, T, loop, K, outer, f);
    InsideLabels(items, T, loop, K, outer, f, CodeLabels(FlatItem(it)));
    ShortsInItem(it);
    ShortLabelsIn(it);
    RhsClassified(it.rhs, K);
    OperandDistinct(it);
    OnceMore(stk);
    Apart2(CodeLabels(Flatten(it.rhs)), CodeLabels(FlatItem(it)), f.marked);
  }

  lemma Apart2(a: set<int>, b: set<int>, c: set<int>)
    requires a <= b && forall l :: l in b ==> l !in c
    ensures a !! c
  {
    forall x | x in a
      ensures x !in c
    {
      assert x in b;
    }
  }

  lemma OnceMore(stk: seq<int>)
    requires OnceEach(stk)
    ensures OnceEach(stk + [-1])
  {
  }

  lemma OperandDistinct(it: Item)
    requires it.Short? && DistinctLabels(FlatItem(it))
    ensures DistinctLabels(Flatten(it.rhs))
  {
    var h := [if it.onTrue then JmpIf(it.tgt) else JmpIfNot(it.tgt)];
    var b := [Jmp(it.end), Label(it.tgt), ConstBool(it.k), Label(it.end)];
    DistinctParts(h + Flatten(it.rhs), b);
    DistinctParts(h, Flatten(it.rhs));
  }

  lemma {:induction false} RhsClassified(items: seq<Item>, K: Kinds)
    requires RhsOK(items) && ShortLabels(items) !! K.headers
    ensures Classified(items, K)
    decreases items
  {
    if items != [] {
      assert RhsItemOK(items[0]);
      RhsClassified(items[1..], K);
    }
  }

  /** Labels inside the first item of a level are neither open nor marked. */
  lemma InsideLabels(items: seq<Item>, T: set<int>, loop: LoopOf, K: Kinds, outer: seq<int>, f: Flow, labs: set<int>)
    requires items != [] && Ready(items, T, loop, K, outer, f) && (items[0].Loop? || items[0].Short?)
    requires labs <= CodeLabels(FlatItem(items[0]))
    ensures forall l :: l in labs ==> l >= 0 && l !in outer + Open(items, T) && l !in f.marked
    ensures DistinctLabels(FlatItem(items[0]))
  {
    LabelsAppend(FlatItem(items[0]), Flatten(items[1..]));
    DistinctParts(FlatItem(items[0]), Flatten(items[1..]));
    TopInCode(items[1..]);
    assert TopLabs(items) == TopLabs(items[1..]);
    forall l | l in labs
      ensures l >= 0 && l !in outer + Open(items, T) && l !in f.marked
    {
      assert l in CodeLabels(Flatten(items));
    }
  }

  lemma {:induction false} EmitsShort(fi: FuncInfo, items: seq<Item>, T: set<int>, loop: LoopOf, at: nat, K: Kinds,
                                      excluded: set<int>, outer: seq<int>, f: Flow, g: Gen) returns (g': Gen)
    requires items != [] && items[0].Short? && Ready(items, T, loop, K, outer, f)
    requires Agrees(g, outer + Open(items, T), f)
    ensures Emits(fi, items, T, at, K, excluded, outer, f, g, g')
    decreases items, 1
  {
    hide Agrees, Ready, EmitFrom, EmitRange, DistinctLabels, RhsOK, Wrap, ShortsOf, Targets, BlockDepth, FlatItem, Drop2, FlowAll;
    var it, rest, stk := items[0], Flatten(items[1..]), outer + Open(items, T);
    OperandReady(items, T, loop, K, outer, f);
    OpenSame(items, T);
    assert g.dead == f.dead by { SameDead(g, stk, f); }
    if f.dead {
      g' := g;
      NoDepth(g, stk, f, ShortsOf(it));
      EmitDeadShort(fi, it, rest, at, K, excluded, g);
      assert g.buf + [] == g.buf;
    } else {
      var c := TOp(I32Const(it.k));
      var g1 := OpenBlockFor(g, CtrlIf, -1, TIf);
      var g2 := if it.onTrue then Put(g1, [c, TElse]) else g1;
      NotMarkedMinus(items, T, loop, K, outer, f);
      AgreesPush(g, stk, f, CtrlIf, -1, TIf);
      AgreesPut(g1, stk + [-1], f, [c, TElse]);
      var g3 := EmitsRange(fi, it.rhs, None, at + 1, K, stk + [-1], f, g2);
      var r := Wrap(fi, [], it.rhs, {}, f, stk + [-1]);
      OperandFlow(it.rhs, f);
      var g4 := if it.onTrue then g3 else Put(g3, [TElse, c]);
      AgreesPut(g3, stk + [-1], f, [TElse, c]);
      AgreesPop(g4, stk, -1, f);
      g' := Drop2(g4);
      EmitShort(fi, it, rest, at, K, excluded, g);
      ShortToks(it, c, r, g.buf);
    }
  }

  lemma SameDead(g: Gen, stk: seq<int>, f: Flow)
    requires Agrees(g, stk, f)
    ensures g.dead == f.dead
  {
  }

  lemma NotMarkedMinus(items: seq<Item>, T: set<int>, loop: LoopOf, K: Kinds, outer: seq<int>, f: Flow)
    requires Ready(items, T, loop, K, outer, f)
    ensures -1 !in f.marked
  {
  }

  lemma AgreesPut(g: Gen, stk: seq<int>, f: Flow, ts: seq<Tok>)
    requires Agrees(g, stk, f)
    ensures Agrees(Put(g, ts), stk, f)
  {
  }

  lemma OperandFlow(rhs: seq<Item>, f: Flow)
    requires RhsOK(rhs)
    ensures FlowAll(rhs, {}, f) == f
  {
    RhsLevel(rhs, {}, f, 0);
  }

  lemma NoDepth(g: Gen, stk: seq<int>, f: Flow, labs: set<int>)
    requires Agrees(g, stk, f) && forall l :: l in labs ==> l !in stk
    ensures forall l :: l in labs ==> BlockDepth(g.blocks, l) == -1
  {
    forall l | l in labs
      ensures BlockDepth(g.blocks, l) == -1
    {
      SameBlockDepth(g.blocks, stk, l);
    }
  }

  lemma ShortToks(it: Item, c: Tok, r: seq<W>, buf: seq<Tok>)
    requires it.Short? && c == TOp(I32Const(it.k))
    ensures var k := [Op(I32Const(it.k))];
      && (it.onTrue ==> buf + [TIf] + [c, TElse] + ToksAll(r) + [TEnd] == buf + ToksAll([If(k, r)]))
      && (!it.onTrue ==> buf + [TIf] + ToksAll(r) + [TElse, c] + [TEnd] == buf + ToksAll([If(r, k)]))
  {
    var k := [Op(I32Const(it.k))];
    ToksOne(Op(I32Const(it.k)));
    ToksOne(If(k, r));
    ToksOne(If(r, k));
    assert ToksAll(k) == [c];
  }

  // ----- a loop -----

  /** The body is a level of its own inside the block of the break label and the loop. */
  lemma BodyReady(items: seq<Item>, T: set<int>, loop: LoopOf, K: Kinds, outer: seq<int>, f: Flow)
    requires items != [] && items[0].Loop? && Ready(items, T, loop, K, outer, f)
    ensures var it, stk := items[0], outer + Open(items, T);
      && ItemOK(it, items[1..], loop) && LevelOK(items[1..], loop)
      && DistinctLabels(FlatItem(it) + Flatten(items[1..]))
      && (loop.Some? ==> it.head != loop.value.0 && it.head != loop.value.1)
      && it.head in K.headers && it.brk !in K.headers && it.head !in f.marked && it.brk !in f.marked
      && it.brk !in stk
      && Ready(it.body, Targets(it.body), Some((it.head, it.brk)), K, stk + [it.brk, it.head], f)
      && CodeLabels(Flatten(it.body)) !! f.marked
  {
    var it := items[0];
    LevelHead(items, loop, K);
    OpenOnce(items, T, loop, K, outer, f);
    InsideLabels(items, T, loop, K, outer, f, CodeLabels(FlatItem(it)));
    LoopLabelsIn(it);
    OnceTwice(outer + Open(items, T), it.brk, it.head);
    Apart2(CodeLabels(Flatten(it.body)), CodeLabels(FlatItem(it)), f.marked);
  }

  lemma OnceTwice(stk: seq<int>, b: int, h: int)
    requires OnceEach(stk) && b !in stk && h !in stk && b != h
    ensures OnceEach(stk + [b, h])
  {
  }

  lemma LoopLabelsIn(it: Item)
    requires it.Loop? && DistinctLabels(FlatItem(it))
    ensures CodeLabels(FlatItem(it)) == {it.head, it.brk} + CodeLabels(Flatten(it.body))
    ensures it.head != it.brk && it.head !in CodeLabels(Flatten(it.body)) && it.brk !in CodeLabels(Flatten(it.body))
    ensures DistinctLabels(Flatten(it.body))
  {
    LabelsAppend([Label(it.head)] + Flatten(it.body), [Label(it.brk)]);
    LabelsAppend([Label(it.head)], Flatten(it.body));
    DistinctParts([Label(it.head)] + Flatten(it.body), [Label(it.brk)]);
    DistinctParts([Label(it.head)], Flatten(it.body));
    HasCodeLabel([Label(it.head)], 0);
    HasCodeLabel([Label(it.brk)], 0);
  }

  lemma {:induction false} EmitsLoop(fi: FuncInfo, items: seq<Item>, T: set<int>, loop: LoopOf, at: nat, K: Kinds,
                                     excluded: set<int>, outer: seq<int>, f: Flow, g: Gen) returns (g': Gen)
    requires items != [] && items[0].Loop? && Ready(items, T, loop, K, outer, f)
    requires Agrees(g, outer + Open(items, T), f)
    ensures Emits(fi, items, T, at, K, excluded, outer, f, g, g')
    decreases items, 1
  {
    hide Agrees, Ready, EmitFrom, EmitRange, DistinctLabels, BlockDepth, Drop2, ItemOK, LevelOK, Settle, FlowItem, EmitItem, Flatten;
    var it, rest, stk := items[0], Flatten(items[1..]), outer + Open(items, T);
    BodyReady(items, T, loop, K, outer, f);
    OpenSame(items, T);
    FlattenHead(items);
    g' := LoopInside(fi, items, T, loop, at, K, outer, f, g);
    EmitLoop(fi, it, items[1..], loop, at, K, excluded, g);
    NoDepth(g', stk, FlowItem(it, T, f), {it.brk});
    var n := |FlatItem(it)| - 1;
    EmitSkip(fi, it.brk, rest, at + n, K, excluded, g');
  }

  lemma {:induction false} LoopInside(fi: FuncInfo, items: seq<Item>, T: set<int>, loop: LoopOf, at: nat, K: Kinds,
                                      outer: seq<int>, f: Flow, g: Gen) returns (g': Gen)
    requires items != [] && items[0].Loop? && Ready(items, T, loop, K, outer, f)
    requires Agrees(g, outer + Open(items, T), f)
    ensures var it := items[0];
      var g1 := OpenBlockFor(OpenBlockFor(g, CtrlBlock, it.brk, TBlock), CtrlLoop, it.head, TLoop);
      var g2 := Drop2(EmitRange(fi, Flatten(it.body), at + 1, K, g1));
      g' == Settle(Drop2(g2), |g2.blocks| >= 1 && g2.blocks[|g2.blocks| - 1].live)
    ensures Agrees(g', outer + Open(items, T), FlowItem(items[0], T, f))
    ensures g'.buf == g.buf + ToksAll(EmitItem(fi, items[0], f, outer + Open(items, T)))
    decreases items, 0
  {
    hide Agrees, Ready, EmitRange, DistinctLabels, Wrap, Targets, FlatItem, Drop2, FlowAll, ItemOK, LevelOK, Settle;
    var it, stk := items[0], outer + Open(items, T);
    BodyReady(items, T, loop, K, outer, f);
    var gb := OpenBlockFor(g, CtrlBlock, it.brk, TBlock);
    AgreesPush(g, stk, f, CtrlBlock, it.brk, TBlock);
    var g1 := OpenBlockFor(gb, CtrlLoop, it.head, TLoop);
    AgreesPush(gb, stk + [it.brk], f, CtrlLoop, it.head, TLoop);
    assert stk + [it.brk] + [it.head] == stk + [it.brk, it.head];
    var g2 := EmitsRange(fi, it.body, Some((it.head, it.brk)), at + 1, K, stk + [it.brk, it.head], f, g1);
    var fb := FlowAll(it.body, Targets(it.body), f);
    AgreesPop(g2, stk + [it.brk], it.head, fb);
    AgreesPop(Drop2(g2), stk, it.brk, fb);
    var g3 := Drop2(Drop2(g2));
    var live := it.brk in fb.marked;
    SettleSim(g3, stk, fb, live);
    g' := Settle(g3, live);
    LoopToks(Wrap(fi, [], it.body, Targets(it.body), f, stk + [it.brk, it.head]), FlowItem(it, T, f), g.buf);
  }

  lemma LoopToks(r: seq<W>, f: Flow, buf: seq<Tok>)
    ensures buf + [TBlock] + [TLoop] + ToksAll(r) + [TEnd] + [TEnd] + ToksAll(Dead(f))
         == buf + ToksAll([Block([LoopW(r)])] + Dead(f))
  {
    ToksOne(LoopW(r));
    ToksOne(Block([LoopW(r)]));
    ToksAppend([Block([LoopW(r)])], Dead(f));
  }
}
