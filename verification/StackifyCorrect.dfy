/** The stackifier as a whole: its output is the structured code of the shape, and that
    code computes what the labelled code computes. */
module StackifyCorrect {
  import opened Ir
  import opened Shape
  import opened Wasm
  import opened Structured
  import opened Tags
  import opened Stackify
  import opened Searches
  import opened ScanShape
  import opened SortShape
  import opened EmitShape
  import LinearForm
  import Simulation

  // ----- pass 1 tells loop heads from forward targets -----

  /** The heads of all loops, at any depth. */
  function Heads(items: seq<Item>): set<int>
    decreases items
  {
    if items == [] then {} else HeadsOf(items[0]) + Heads(items[1..])
  }

  function HeadsOf(it: Item): set<int>
    decreases it
  {
    if it.Loop? then {it.head} + Heads(it.body) else {}
  }

  /** The forward targets inside the loops of a level, at any depth. */
  function InnerTargets(items: seq<Item>): set<int>
    decreases items
  {
    if items == [] then {} else InnerTargetsOf(items[0]) + InnerTargets(items[1..])
  }

  function InnerTargetsOf(it: Item): set<int>
    decreases it
  {
    if it.Loop? then Targets(it.body) + InnerTargets(it.body) else {}
  }

  /** What pass 1 has learned after a level of the given loop. */
  ghost predicate Learned(items: seq<Item>, loop: LoopOf, k: Kinds, k': Kinds) {
    var back := if loop.Some? then {loop.value.0} else {};
    && k.headers <= k'.headers <= k.headers + Heads(items) + back
    && k.targets <= k'.targets
    && Heads(items) <= k'.headers && InnerTargets(items) <= k'.targets
    && TopJumps(items) <= k'.targets + back
    && (loop.Some? && Goto(loop.value.0) in items ==> loop.value.0 in k'.headers)
  }

  /** The loop around a level has been entered and not yet left. */
  predicate Inside(loop: LoopOf, labs: set<int>, seen: set<int>) {
    && labs !! seen
    && (loop.Some? ==> loop.value.0 in seen && loop.value.1 !in seen && loop.value.1 !in labs)
  }

  lemma ClassifyOne(i: Inst, tail: seq<Inst>, seen: set<int>, k: Kinds)
    ensures Classify([i] + tail, seen, k)
         == Classify(tail, if i.Label? then seen + {i.l} else seen,
                     if IsJump(i) then
                       if i.l in seen then k.(headers := k.headers + {i.l}) else k.(targets := k.targets + {i.l})
                     else k)
  {
    assert ([i] + tail)[1..] == tail;
  }

  lemma {:induction false} ClassifyRhs(items: seq<Item>, tail: seq<Inst>, seen: set<int>, k: Kinds) returns (k': Kinds)
    requires RhsOK(items) && CodeLabels(Flatten(items)) !! seen && DistinctLabels(Flatten(items))
    ensures Classify(Flatten(items) + tail, seen, k) == Classify(tail, seen + CodeLabels(Flatten(items)), k')
    ensures k'.headers == k.headers && k.targets <= k'.targets
    decreases items, 1
  {
    if items == [] {
      k' := k;
      assert Flatten(items) + tail == tail;
      assert seen + {} == seen;
    } else {
      hide Classify, CodeLabels, DistinctLabels, FlatItem, Flatten;
      var it, rest := items[0], items[1..];
      RhsTail(items);
      FlatHead(items, tail);
      FlattenHead(items);
      LabelsAppend(FlatItem(it), Flatten(rest));
      DistinctParts(FlatItem(it), Flatten(rest));
      var k1 := ClassifyRhsItem(it, Flatten(rest) + tail, seen, k);
      k' := ClassifyRhs(rest, tail, seen + CodeLabels(FlatItem(it)), k1);
      assert seen + CodeLabels(FlatItem(it)) + CodeLabels(Flatten(rest)) == seen + CodeLabels(Flatten(items));
    }
  }

  lemma PlainLabels(it: Item)
    requires it.Plain? && !it.op.Label?
    ensures CodeLabels(FlatItem(it)) == {} && FlatItem(it) == [it.op]
  {
  }

  lemma {:induction false} ClassifyRhsItem(it: Item, tail: seq<Inst>, seen: set<int>, k: Kinds) returns (k': Kinds)
    requires RhsItemOK(it) && CodeLabels(FlatItem(it)) !! seen && DistinctLabels(FlatItem(it))
    ensures Classify(FlatItem(it) + tail, seen, k) == Classify(tail, seen + CodeLabels(FlatItem(it)), k')
    ensures k'.headers == k.headers && k.targets <= k'.targets
    decreases it, 1
  {
    hide Classify, DistinctLabels, FlatItem, CodeLabels, RhsOK;
    if it.Plain? {
      PlainLabels(it);
      ClassifyOne(it.op, tail, seen, k);
      assert seen + {} == seen;
      k' := k;
    } else {
      k' := ClassifyShort(it, tail, seen, k);
    }
  }

  lemma {:induction false} ClassifyShort(it: Item, tail: seq<Inst>, seen: set<int>, k: Kinds) returns (k': Kinds)
    requires it.Short? && RhsOK(it.rhs) && CodeLabels(FlatItem(it)) !! seen && DistinctLabels(FlatItem(it))
    ensures Classify(FlatItem(it) + tail, seen, k) == Classify(tail, seen + CodeLabels(FlatItem(it)), k')
    ensures k'.headers == k.headers && k.targets <= k'.targets
    decreases it, 0
  {
    hide Classify, DistinctLabels, FlatItem, CodeLabels, RhsOK;
    var h := if it.onTrue then JmpIf(it.tgt) else JmpIfNot(it.tgt);
    var t4 := [Label(it.end)] + tail;
    var t3 := [ConstBool(it.k)] + t4;
    var t2 := [Label(it.tgt)] + t3;
    var t1 := [Jmp(it.end)] + t2;
    ShortSplit(it, tail, h, t1);
    ShortLabelsIn(it);
    ShortApart(it);
    var labs := CodeLabels(Flatten(it.rhs));
    ClassifyOne(h, Flatten(it.rhs) + t1, seen, k);
    var k1 := k.(targets := k.targets + {it.tgt});
    var k2 := ClassifyRhs(it.rhs, t1, seen, k1);
    ClassifyOne(Jmp(it.end), t2, seen + labs, k2);
    k' := k2.(targets := k2.targets + {it.end});
    ClassifyOne(Label(it.tgt), t3, seen + labs, k');
    ClassifyOne(ConstBool(it.k), t4, seen + labs + {it.tgt}, k');
    ClassifyOne(Label(it.end), tail, seen + labs + {it.tgt}, k');
    assert seen + labs + {it.tgt} + {it.end} == seen + (labs + {it.tgt, it.end});
  }

  lemma ShortApart(it: Item)
    requires it.Short? && DistinctLabels(FlatItem(it))
    ensures DistinctLabels(Flatten(it.rhs)) && it.end !in CodeLabels(Flatten(it.rhs))
  {
    var h := [if it.onTrue then JmpIf(it.tgt) else JmpIfNot(it.tgt)];
    var b := [Jmp(it.end), Label(it.tgt), ConstBool(it.k), Label(it.end)];
    DistinctParts(h + Flatten(it.rhs), b);
    DistinctParts(h, Flatten(it.rhs));
    LabelsAppend(h, Flatten(it.rhs));
    HasCodeLabel(b, 3);
  }

  /** Pass 1 over a level: the jumps back are those to loop heads. */
  lemma {:induction false} ClassifyLevel(items: seq<Item>, loop: LoopOf, tail: seq<Inst>, seen: set<int>, k: Kinds)
    returns (k': Kinds)
    requires LevelOK(items, loop) && DistinctLabels(Flatten(items))
    requires Inside(loop, CodeLabels(Flatten(items)), seen)
    ensures Classify(Flatten(items) + tail, seen, k) == Classify(tail, seen + CodeLabels(Flatten(items)), k')
    ensures Learned(items, loop, k, k')
    decreases items, 1
  {
    if items == [] {
      k' := k;
      assert Flatten(items) + tail == tail;
      assert seen + {} == seen;
    } else {
      hide Classify, CodeLabels, DistinctLabels, FlatItem, Flatten, Learned, ItemOK;
      var it, rest := items[0], items[1..];
      FlatHead(items, tail);
      FlattenHead(items);
      LabelsAppend(FlatItem(it), Flatten(rest));
      DistinctParts(FlatItem(it), Flatten(rest));
      TopInCode(rest);
      var k1 := ClassifyItem(it, rest, loop, Flatten(rest) + tail, seen, k);
      k' := ClassifyLevel(rest, loop, tail, seen + CodeLabels(FlatItem(it)), k1);
      assert seen + CodeLabels(FlatItem(it)) + CodeLabels(Flatten(rest)) == seen + CodeLabels(Flatten(items));
      LearnedHead(items, loop, k, k1, k');
    }
  }

  lemma LearnedHead(items: seq<Item>, loop: LoopOf, k: Kinds, k1: Kinds, k': Kinds)
    requires items != [] && LearnedItem(items[0], loop, k, k1) && Learned(items[1..], loop, k1, k')
    ensures Learned(items, loop, k, k')
  {
    assert items == [items[0]] + items[1..];
  }

  ghost predicate LearnedItem(it: Item, loop: LoopOf, k: Kinds, k': Kinds) {
    var back := if loop.Some? then {loop.value.0} else {};
    && k.headers <= k'.headers <= k.headers + HeadsOf(it) + back
    && k.targets <= k'.targets
    && HeadsOf(it) <= k'.headers && InnerTargetsOf(it) <= k'.targets
    && (IsGoto(it) ==> it.l in k'.targets + back)
    && (loop.Some? && it == Goto(loop.value.0) ==> loop.value.0 in k'.headers)
  }

  lemma {:induction false} ClassifyItem(it: Item, rest: seq<Item>, loop: LoopOf, tail: seq<Inst>, seen: set<int>, k: Kinds)
    returns (k': Kinds)
    requires ItemOK(it, rest, loop) && DistinctLabels(FlatItem(it))
    requires Inside(loop, CodeLabels(FlatItem(it)), seen) && TopLabs(rest) !! seen
    ensures Classify(FlatItem(it) + tail, seen, k) == Classify(tail, seen + CodeLabels(FlatItem(it)), k')
    ensures LearnedItem(it, loop, k, k')
    decreases it, 1
  {
    hide Classify, DistinctLabels, CodeLabels;
    match it
    case Plain(op) =>
      PlainLabels(it);
      ClassifyOne(op, tail, seen, k);
      assert seen + {} == seen;
      k' := k;
    case Lab(l) =>
      LabLabels(it);
      ClassifyOne(Label(l), tail, seen, k);
      k' := k;
    case Loop(_, _, _) =>
      k' := ClassifyLoop(it, rest, loop, tail, seen, k);
    case Short(_, _, _, _, _) =>
      k' := ClassifyShort(it, tail, seen, k);
    case _ =>
      GotoLabels(it);
      var h := GotoInst(it);
      ClassifyOne(h, tail, seen, k);
      assert seen + {} == seen;
      var l := h.l;
      k' := if l in seen then k.(headers := k.headers + {l}) else k.(targets := k.targets + {l});
  }

  lemma LabLabels(it: Item)
    requires it.Lab?
    ensures CodeLabels(FlatItem(it)) == {it.l} && FlatItem(it) == [Label(it.l)]
  {
  }

  lemma GotoLabels(it: Item)
    requires IsGoto(it)
    ensures CodeLabels(FlatItem(it)) == {} && FlatItem(it) == [GotoInst(it)]
  {
  }

  lemma LoopSplit(it: Item, rest: seq<Inst>)
    requires it.Loop?
    ensures FlatItem(it) + rest == [Label(it.head)] + (Flatten(it.body) + ([Label(it.brk)] + rest))
  {
  }

  lemma {:induction false} ClassifyLoop(it: Item, rest: seq<Item>, loop: LoopOf, tail: seq<Inst>, seen: set<int>, k: Kinds)
    returns (k': Kinds)
    requires it.Loop? && ItemOK(it, rest, loop) && DistinctLabels(FlatItem(it))
    requires Inside(loop, CodeLabels(FlatItem(it)), seen)
    ensures Classify(FlatItem(it) + tail, seen, k) == Classify(tail, seen + CodeLabels(FlatItem(it)), k')
    ensures LearnedItem(it, loop, k, k')
    decreases it, 0
  {
    hide Classify, DistinctLabels, CodeLabels, FlatItem, Flatten, LevelOK;
    var me, labs := Some((it.head, it.brk)), CodeLabels(Flatten(it.body));
    var t := [Label(it.brk)] + tail;
    LoopSplit(it, tail);
    LoopLabelsIn(it);
    ClassifyOne(Label(it.head), Flatten(it.body) + t, seen, k);
    k' := ClassifyLevel(it.body, me, t, seen + {it.head}, k);
    ClassifyOne(Label(it.brk), tail, seen + {it.head} + labs, k');
    assert seen + {it.head} + labs + {it.brk} == seen + ({it.head, it.brk} + labs);
    BodyLearned(it, loop, k, k');
  }

  lemma BodyLearned(it: Item, loop: LoopOf, k: Kinds, k': Kinds)
    requires it.Loop? && it.body != [] && it.body[|it.body| - 1] == Goto(it.head)
    requires it.head !in CodeLabels(Flatten(it.body))
    requires Learned(it.body, Some((it.head, it.brk)), k, k')
    ensures LearnedItem(it, loop, k, k')
  {
    assert Goto(it.head) in it.body;
    TopInCode(it.body);
  }

  lemma {:induction false} HeadsInCode(items: seq<Item>)
    ensures Heads(items) <= CodeLabels(Flatten(items))
    decreases items, 1
  {
    if items != [] {
      FlattenHead(items);
      LabelsAppend(FlatItem(items[0]), Flatten(items[1..]));
      HeadsInItem(items[0]);
      HeadsInCode(items[1..]);
    }
  }

  lemma {:induction false} HeadsInItem(it: Item)
    ensures HeadsOf(it) <= CodeLabels(FlatItem(it))
    decreases it, 0
  {
    if it.Loop? {
      HeadsInCode(it.body);
      LoopLabels(it);
    }
  }

  lemma LoopLabels(it: Item)
    requires it.Loop?
    ensures CodeLabels(FlatItem(it)) == {it.head, it.brk} + CodeLabels(Flatten(it.body))
  {
    LabelsAppend([Label(it.head)] + Flatten(it.body), [Label(it.brk)]);
    LabelsAppend([Label(it.head)], Flatten(it.body));
  }

  /** If the headers are the loop heads and the targets are known, the level is classified. */
  lemma {:induction false} Classifies(items: seq<Item>, K: Kinds)
    requires DistinctLabels(Flatten(items)) && InnerTargets(items) <= K.targets
    requires K.headers * CodeLabels(Flatten(items)) == Heads(items)
    ensures Classified(items, K)
    decreases items, 1
  {
    if items != [] {
      var it, rest := items[0], items[1..];
      FlattenHead(items);
      LabelsAppend(FlatItem(it), Flatten(rest));
      DistinctParts(FlatItem(it), Flatten(rest));
      HeadsInCode(rest);
      HeadsInItem(it);
      hide DistinctLabels, CodeLabels, Flatten, FlatItem, ClassifiedItem, HeadsOf, InnerTargetsOf;
      Share(K.headers, CodeLabels(FlatItem(it)), CodeLabels(Flatten(rest)), HeadsOf(it), Heads(rest));
      ClassifiesItem(it, K);
      Classifies(rest, K);
    }
  }

  lemma Share(k: set<int>, a: set<int>, b: set<int>, x: set<int>, y: set<int>)
    requires a !! b && x <= a && y <= b && k * (a + b) == x + y
    ensures k * a == x && k * b == y
  {
    forall l
      ensures l in k * a <==> l in x
    {
      assert l in k * (a + b) <==> l in x + y;
    }
    forall l
      ensures l in k * b <==> l in y
    {
      assert l in k * (a + b) <==> l in x + y;
    }
  }

  lemma NotHead(l: int, k: set<int>, labs: set<int>, heads: set<int>)
    requires k * labs == heads && l in labs && l !in heads
    ensures l !in k
  {
    assert l in k * labs <==> l in k;
  }

  lemma {:induction false} ClassifiesItem(it: Item, K: Kinds)
    requires DistinctLabels(FlatItem(it)) && InnerTargetsOf(it) <= K.targets
    requires K.headers * CodeLabels(FlatItem(it)) == HeadsOf(it)
    ensures ClassifiedItem(it, K)
    decreases it, 0
  {
    if it.Loop? {
      LoopLabelsIn(it);
      HeadsInCode(it.body);
      hide DistinctLabels, CodeLabels, Flatten, FlatItem;
      assert it.brk !in Heads(it.body) && it.head in K.headers;
      Share(K.headers, {it.head, it.brk}, CodeLabels(Flatten(it.body)), {it.head}, Heads(it.body));
      NotHead(it.brk, K.headers, {it.head, it.brk}, {it.head});
      Classifies(it.body, K);
    } else if it.Lab? {
      LabLabels(it);
      NotHead(it.l, K.headers, {it.l}, {});
    } else if it.Short? {
      ShortsInItem(it);
    }
  }

  lemma {:induction false} LabelsNatural(items: seq<Item>, loop: LoopOf)
    requires LevelOK(items, loop)
    ensures forall l :: l in CodeLabels(Flatten(items)) ==> l >= 0
    decreases items, 1
  {
    if items != [] {
      FlattenHead(items);
      LabelsAppend(FlatItem(items[0]), Flatten(items[1..]));
      LabelsNaturalItem(items[0], items[1..], loop);
      LabelsNatural(items[1..], loop);
    }
  }

  lemma {:induction false} LabelsNaturalItem(it: Item, rest: seq<Item>, loop: LoopOf)
    requires ItemOK(it, rest, loop)
    ensures forall l :: l in CodeLabels(FlatItem(it)) ==> l >= 0
    decreases it, 0
  {
    match it
    case Loop(h, b, body) =>
      LoopLabels(it);
      LabelsNatural(body, Some((h, b)));
    case Short(_, _, _, _, rhs) =>
      ShortLabelsIn(it);
      LabelsNaturalRhs(rhs);
    case _ =>
  }

  lemma {:induction false} LabelsNaturalRhs(items: seq<Item>)
    requires RhsOK(items)
    ensures forall l :: l in CodeLabels(Flatten(items)) ==> l >= 0
    decreases items
  {
    if items != [] {
      FlattenHead(items);
      LabelsAppend(FlatItem(items[0]), Flatten(items[1..]));
      assert RhsItemOK(items[0]);
      if items[0].Short? {
        ShortLabelsIn(items[0]);
        LabelsNaturalRhs(items[0].rhs);
      }
      LabelsNaturalRhs(items[1..]);
    }
  }

  // ----- the output of the stackifier -----

  const START: Flow := Flow(false, {})

  /** The structured body of a function. */
  function BodyCode(fi: FuncInfo, items: seq<Item>): seq<W> {
    Wrap(fi, [], items, Targets(items), START, [])
  }

  lemma WholeReady(items: seq<Item>)
    requires LevelOK(items, None) && DistinctLabels(Flatten(items))
    ensures Ready(items, Targets(items), None, Classify(Flatten(items), {}, Kinds({}, {})), [], START)
  {
    var none := Kinds({}, {});
    var code := Flatten(items);
    var K := ClassifyLevel(items, None, [], {}, none);
    assert code + [] == code;
    assert K == Classify(code, {}, none);
    HeadsInCode(items);
    assert K.headers * CodeLabels(code) == Heads(items);
    Classifies(items, K);
    LabelsNatural(items, None);
  }

  /** For every well-formed shape the stackifier emits the tokens of its structured code,
      nothing else, and leaves no block open. */
  lemma StackifyEmits(fi: FuncInfo, items: seq<Item>, buf: seq<Tok>)
    requires LevelOK(items, None) && DistinctLabels(Flatten(items))
    ensures StackifyCode(fi, Flatten(items), buf)
         == Gen(buf + ToksAll(BodyCode(fi, items)), [], FlowAll(items, Targets(items), START).dead)
  {
    WholeReady(items);
    var g := Gen(buf, [], false);
    hide Ready, EmitRange, Classify, FlowAll, Targets, Wrap;
    var g' := EmitsRange(fi, items, None, 0, Classify(Flatten(items), {}, Kinds({}, {})), [], START, g);
    assert g'.blocks == [];
  }

  // ----- meaning -----

  /** A function body with switches: the labels V are reached with the tag on the operand stack. */
  ghost predicate TaggedBody(fi: FuncInfo, items: seq<Item>, V: set<int>) {
    && LevelOK(items, None) && DistinctLabels(Flatten(items))
    && OperandsOK(items, fi.slots) && TallyAll(items, EMPTY, Targets(items), V).h >= 0
    && ReturnsOK(items, Targets(items), START, fi.rc)
  }

  /** A function body as the lowering leaves it: the operand stack is empty at every label. */
  ghost predicate GoodBody(fi: FuncInfo, items: seq<Item>) {
    && LevelOK(items, None) && DistinctLabels(Flatten(items))
    && OperandsOK(items, fi.slots) && Height(items, 0) >= 0
    && ReturnsOK(items, Targets(items), START, fi.rc)
  }

  lemma GoodIsTagged(fi: FuncInfo, items: seq<Item>)
    requires GoodBody(fi, items)
    ensures TaggedBody(fi, items, {})
  {
    var t := PlainTally(items, [], 0, EMPTY, Targets(items), {}, None);
    assert items + [] == items;
  }

  /** The frame in linear memory holds the given locals. */
  ghost predicate Holds(fi: FuncInfo, locals: seq<int>, w: WState) {
    && w.stack == [] && |locals| == fi.slots && Words(locals)
    && forall i {:trigger locals[i]} :: 0 <= i < fi.slots ==> Read(w.mem, w.sp + 4 * i) == locals[i]
  }

  function FlatRun(items: seq<Item>, locals: seq<int>, n: nat): Conf {
    Run(Vm32, Flatten(items), Running(0, State([], locals)), n)
  }

  function WasmRun(fi: FuncInfo, items: seq<Item>, w: WState, n: nat): WConf {
    WRun(fi.rc, Code(BodyCode(fi, items), [], w), n)
  }

  /** The labelled body, started with these locals, ends with the values r. */
  ghost predicate FlatGives(items: seq<Item>, locals: seq<int>, r: seq<int>) {
    exists n: nat :: FlatRun(items, locals, n) == Done(r)
  }

  ghost predicate WasmGives(rc: nat, c: WConf, r: seq<int>) {
    exists n: nat :: WRun(rc, c, n).Finished? && WRun(rc, c, n).result == r
  }

  lemma StartMatched(fi: FuncInfo, items: seq<Item>, V: set<int>, locals: seq<int>, w: WState)
    returns (p: Simulation.Place, k: nat)
    requires TaggedBody(fi, items, V) && Holds(fi, locals, w)
    ensures Simulation.Matched(fi, w, Flatten(items), p, FlatRun(items, locals, 0), WasmRun(fi, items, w, k))
  {
    hide Simulation.LevelFacts, Simulation.CtxOK, Run, WRun, Wrap, Flatten, TaggedBody, Open, Body, Conts;
    p := Simulation.Place(items, Targets(items), START, EMPTY, Simulation.Top(V));
    k := |Open(items, Targets(items))|;
    var s := State([], locals);
    Simulation.EnterBody(fi, p, w);
    StartFacts(fi, items, V);
    Simulation.MatchedAt(fi, w, Flatten(items), p, Running(0, s), WasmRun(fi, items, w, k));
    assert Run(Vm32, Flatten(items), Running(0, s), 0) == Running(0, s) by { RunNone(Flatten(items), Running(0, s)); }
  }

  lemma RunNone(code: seq<Inst>, c: Conf)
    ensures Run(Vm32, code, c, 0) == c
  {
  }

  /** Where a body starts. */
  lemma StartFacts(fi: FuncInfo, items: seq<Item>, V: set<int>)
    requires TaggedBody(fi, items, V)
    ensures var p := Simulation.Place(items, Targets(items), START, EMPTY, Simulation.Top(V));
      && Simulation.LevelFacts(fi, Flatten(items), p) && Simulation.CtxOK(fi, Flatten(items), p.ctx)
      && Simulation.At(Flatten(items), p) == 0
  {
    assert Flatten(items) + [] == Flatten(items);
    if EndsInReturn(Flatten(items)) {
      ReturnEndsDead(items, Targets(items), START);
    }
  }

  /** After a last return nothing is reached. */
  lemma {:induction false} ReturnEndsDead(items: seq<Item>, T: set<int>, f: Flow)
    requires EndsInReturn(Flatten(items))
    ensures FlowAll(items, T, f).dead
    decreases items
  {
    var a, b := FlatItem(items[0]), Flatten(items[1..]);
    if b != [] {
      assert (a + b)[|a + b| - 1] == b[|b| - 1];
      ReturnEndsDead(items[1..], T, FlowItem(items[0], T, f));
    } else {
      assert a + b == a;
      NoItems(items[1..]);
    }
  }

  lemma NoItems(items: seq<Item>)
    requires Flatten(items) == []
    ensures items == []
  {
  }

  /** The labelled body and the structured body of a function compute the same: one ends
      with some values exactly when the other does, and neither ever crashes or traps -
      code marked dead is not reached. A body that ends in a return leaves in order: its frame
      given back, the memory outside it and the scratch words as it was. */
  lemma StackifierPreserves(fi: FuncInfo, items: seq<Item>, V: set<int>, locals: seq<int>, w: WState, r: seq<int>)
    requires TaggedBody(fi, items, V) && Holds(fi, locals, w) && fi.rc <= MAX_RESULTS
    requires ConstsBelow(Flatten(items), TWO32)
    ensures FlatGives(items, locals, r) <==> WasmGives(fi.rc, Code(BodyCode(fi, items), [], w), r)
    ensures forall n: nat :: FlatRun(items, locals, n) != Crashed
    ensures forall n: nat :: WasmRun(fi, items, w, n) != Trapped
    ensures EndsInReturn(Flatten(items)) ==>
              forall n: nat :: WasmRun(fi, items, w, n).Finished? ==> Left(fi, w, WasmRun(fi, items, w, n))
  {
    hide Run, WRun, Flatten, Wrap, EndsInReturn, ConstsBelow, Left;
    var c := Code(BodyCode(fi, items), [], w);
    if n: nat :| FlatRun(items, locals, n) == Done(r) {
      var k := FlatResult(fi, items, V, locals, w, n);
      assert WRun(fi.rc, c, k).Finished? && WRun(fi.rc, c, k).result == r;
    }
    if n: nat :| WRun(fi.rc, c, n).Finished? && WRun(fi.rc, c, n).result == r {
      assert WasmRun(fi, items, w, n).Finished?;
      var m := WasmResult(fi, items, V, locals, w, n);
    }
    forall n: nat
      ensures FlatRun(items, locals, n) != Crashed
    {
      if !FlatRun(items, locals, n).Running? {
        var k := FlatResult(fi, items, V, locals, w, n);
      }
    }
    forall n: nat
      ensures WasmRun(fi, items, w, n) != Trapped
      ensures EndsInReturn(Flatten(items)) && WasmRun(fi, items, w, n).Finished? ==> Left(fi, w, WasmRun(fi, items, w, n))
    {
      if !WasmRun(fi, items, w, n).Code? {
        var m := WasmResult(fi, items, V, locals, w, n);
      }
    }
  }

  /** The two runs have ended with the same values, the structured one in order. */
  ghost predicate BothEnd(fi: FuncInfo, items: seq<Item>, locals: seq<int>, w: WState, m: nat, k: nat) {
    Simulation.SameEnd(fi, w, Flatten(items), FlatRun(items, locals, m), WasmRun(fi, items, w, k))
  }

  lemma FlatResult(fi: FuncInfo, items: seq<Item>, V: set<int>, locals: seq<int>, w: WState, n: nat) returns (k: nat)
    requires TaggedBody(fi, items, V) && Holds(fi, locals, w) && fi.rc <= MAX_RESULTS && ConstsBelow(Flatten(items), TWO32)
    requires !FlatRun(items, locals, n).Running?
    ensures BothEnd(fi, items, locals, w, n, k)
  {
    hide Simulation.Matched, Wrap, Flatten, ConstsBelow;
    var p, a := StartMatched(fi, items, V, locals, w);
    var b := Simulation.FlatEnds(fi, w, Flatten(items), p, FlatRun(items, locals, 0), WasmRun(fi, items, w, a), n);
    WRunAdd(fi.rc, Code(BodyCode(fi, items), [], w), a, b);
    k := a + b;
  }

  lemma WasmResult(fi: FuncInfo, items: seq<Item>, V: set<int>, locals: seq<int>, w: WState, n: nat) returns (m: nat)
    requires TaggedBody(fi, items, V) && Holds(fi, locals, w) && fi.rc <= MAX_RESULTS && ConstsBelow(Flatten(items), TWO32)
    requires !WasmRun(fi, items, w, n).Code?
    ensures BothEnd(fi, items, locals, w, m, n)
  {
    hide Simulation.Matched, Wrap, Flatten, ConstsBelow;
    var p, a := StartMatched(fi, items, V, locals, w);
    var c := Code(BodyCode(fi, items), [], w);
    assert WRun(fi.rc, c, a).Code? by { MatchedCode(fi, w, Flatten(items), p, FlatRun(items, locals, 0), WRun(fi.rc, c, a)); }
    Simulation.WNotBefore(fi.rc, c, n, a);
    WRunAdd(fi.rc, c, a, n - a);
    m := Simulation.StructuredEnds(fi, w, Flatten(items), p, FlatRun(items, locals, 0), WasmRun(fi, items, w, a), n - a);
  }

  lemma MatchedCode(fi: FuncInfo, o: WState, code: seq<Inst>, p: Simulation.Place, c: Conf, w: WConf)
    requires Simulation.Matched(fi, o, code, p, c, w)
    ensures w.Code?
  {
  }

  // ----- the whole function, with its prologue -----

  function FuncCode(fi: FuncInfo, items: seq<Item>): seq<W> {
    Ops(Prologue(fi)) + BodyCode(fi, items)
  }

  /** What the code generator writes for a whole function, read back, is FuncCode. */
  lemma CompiledFunction(fi: FuncInfo, items: seq<Item>)
    requires LevelOK(items, None) && DistinctLabels(Flatten(items))
    ensures StackifyCode(fi, Flatten(items), TOps(Prologue(fi))).buf == ToksAll(FuncCode(fi, items))
    ensures LinearForm.Parse(StackifyCode(fi, Flatten(items), TOps(Prologue(fi))).buf) == (FuncCode(fi, items), [])
    ensures StackifyCode(fi, Flatten(items), TOps(Prologue(fi))).blocks == []
  {
    hide ToksAll, Wrap;
    LinearForm.ParseBack(FuncCode(fi, items), []);
    assert ToksAll(FuncCode(fi, items)) + [] == ToksAll(FuncCode(fi, items));
    StackifyEmits(fi, items, TOps(Prologue(fi)));
    ToksOps(Prologue(fi));
    ToksAppend(Ops(Prologue(fi)), BodyCode(fi, items));
  }

  /** The locals a call starts with: its arguments, then whatever the memory held. */
  function EntryLocals(fi: FuncInfo, args: seq<int>, w: WState): (r: seq<int>)
    requires |args| == fi.params <= fi.slots
    ensures |r| == fi.slots
  {
    seq(fi.slots, i requires 0 <= i < fi.slots =>
      if i < fi.params then args[i] else Read(w.mem, (w.sp - 4 * fi.slots) % TWO32 + 4 * i))
  }

  /** A call with the arguments in the wasm locals and a frame's worth of shadow stack left. */
  ghost predicate Called(fi: FuncInfo, args: seq<int>, w: WState) {
    && |args| == fi.params <= fi.slots && Words(args)
    && w.stack == [] && 4 * fi.slots <= w.sp < TWO32
    && (forall i {:trigger args[i]} :: 0 <= i < fi.params ==> Read(w.locals, i) == args[i])
    && (forall a {:trigger Read(w.mem, a)} :: 0 <= Read(w.mem, a) < TWO32)
  }

  lemma {:induction false} CopySim(n: nat, args: seq<int>, w: WState) returns (t: WState)
    requires n <= |args| && Words(args) && w.stack == []
    requires forall i {:trigger args[i]} :: 0 <= i < n ==> Read(w.locals, i) == args[i]
    ensures DataAll(CopyParams(n), w) == Some(t)
    ensures t.stack == [] && t.sp == w.sp && t.locals == w.locals
    ensures forall i {:trigger args[i]} :: 0 <= i < n ==> Read(t.mem, w.sp + 4 * i) == args[i]
    ensures KeptBut(w.mem, t.mem, w.sp, w.sp + 4 * n)
  {
    hide DataAll, CopyParams, Read;
    CopyUnfold(n, w);
    if n == 0 {
      t := w;
    } else {
      var u := CopySim(n - 1, args, w);
      var one := [GetSP, LGet(n - 1), I32Store(4 * (n - 1))];
      t := CopyOne(n - 1, args[n - 1], u);
      DataAllAppend(CopyParams(n - 1), one, w);
      Copied(n, args, w.sp, w.mem, u.mem, t.mem);
    }
  }

  lemma CopyUnfold(n: nat, w: WState)
    ensures n == 0 ==> DataAll(CopyParams(n), w) == Some(w)
    ensures n > 0 ==> CopyParams(n) == CopyParams(n - 1) + [GetSP, LGet(n - 1), I32Store(4 * (n - 1))]
  {
  }

  lemma Copied(n: nat, args: seq<int>, sp: int, w: map<int, int>, u: map<int, int>, t: map<int, int>)
    requires 0 < n <= |args| && t == u[sp + 4 * (n - 1) := args[n - 1]]
    requires forall i {:trigger args[i]} :: 0 <= i < n - 1 ==> Read(u, sp + 4 * i) == args[i]
    requires KeptBut(w, u, sp, sp + 4 * (n - 1))
    ensures forall i {:trigger args[i]} :: 0 <= i < n ==> Read(t, sp + 4 * i) == args[i]
    ensures KeptBut(w, t, sp, sp + 4 * n)
  {
    forall a | !(sp <= a < sp + 4 * n)
      ensures Read(t, a) == Read(w, a)
    {
      assert Read(t, a) == Read(u, a);
    }
  }

  lemma CopyOne(i: nat, v: int, w: WState) returns (t: WState)
    requires w.stack == [] && Read(w.locals, i) == v && 0 <= v < TWO32
    ensures DataAll([GetSP, LGet(i), I32Store(4 * i)], w) == Some(t)
    ensures t == w.(mem := w.mem[w.sp + 4 * i := v])
  {
    var code := [GetSP, LGet(i), I32Store(4 * i)];
    var w1 := w.(stack := [w.sp]);
    var w2 := w.(stack := [w.sp, v]);
    assert w.stack + [w.sp] == w1.stack && w1.stack + [v] == w2.stack;
    assert DataAll(code, w) == DataAll(code[1..], w1) == DataAll(code[2..], w2);
    assert code[2..] == [I32Store(4 * i)];
    DataOne(I32Store(4 * i), w2);
    t := w.(mem := w.mem[w.sp + 4 * i := v]);
    assert w2.stack[..0] == [];
  }

  lemma FrameSim(fi: FuncInfo, w: WState)
    requires w.stack == [] && fi.slots > 0 && 4 * fi.slots <= w.sp < TWO32
    ensures DataAll([GetSP, I32Const(4 * fi.slots), I32Bin(ISub), SetSP], w) == Some(w.(sp := w.sp - 4 * fi.slots))
  {
    var x := I32(4 * fi.slots);
    var w1, w2, w3 := w.(stack := [w.sp]), w.(stack := [w.sp, x]), w.(stack := [w.sp - 4 * fi.slots]);
    FrameData(4 * fi.slots, w);
    hide Data;
    FourOps(GetSP, I32Const(4 * fi.slots), I32Bin(ISub), SetSP, w, w1, w2, w3);
  }

  lemma FrameData(f: int, w: WState)
    requires w.stack == [] && 0 < f <= w.sp < TWO32
    ensures Data(GetSP, w) == Some(w.(stack := [w.sp]))
    ensures Data(I32Const(f), w.(stack := [w.sp])) == Some(w.(stack := [w.sp, I32(f)]))
    ensures Data(I32Bin(ISub), w.(stack := [w.sp, I32(f)])) == Some(w.(stack := [w.sp - f]))
    ensures Data(SetSP, w.(stack := [w.sp - f])) == Some(w.(sp := w.sp - f))
  {
    ModOnce(f);
    ModOnce(w.sp - f);
    assert w.stack + [w.sp] == [w.sp] && [w.sp] + [I32(f)] == [w.sp, I32(f)];
    assert [w.sp, I32(f)][..0] + [w.sp - f] == [w.sp - f];
    assert [w.sp, I32(f)][..0] == [w.sp - f][..0] == w.stack;
  }

  lemma FourOps(a: WOp, b: WOp, c: WOp, d: WOp, w: WState, w1: WState, w2: WState, w3: WState)
    requires Data(a, w) == Some(w1) && Data(b, w1) == Some(w2) && Data(c, w2) == Some(w3)
    ensures DataAll([a, b, c, d], w) == Data(d, w3)
  {
    hide Data;
    var code := [a, b, c, d];
    assert DataAll(code, w) == DataAll(code[1..], w1) == DataAll(code[2..], w2) == DataAll(code[3..], w3);
    assert code[3..] == [d];
    DataOne(d, w3);
  }

  lemma PrologueSim(fi: FuncInfo, args: seq<int>, w: WState) returns (t: WState)
    requires Called(fi, args, w)
    ensures DataAll(Prologue(fi), w) == Some(t)
    ensures Holds(fi, EntryLocals(fi, args, w), t)
    ensures t.sp == w.sp - 4 * fi.slots && KeptBut(w.mem, t.mem, t.sp, w.sp)
  {
    var frame := if fi.slots > 0 then [GetSP, I32Const(4 * fi.slots), I32Bin(ISub), SetSP] else [];
    var u := w.(sp := w.sp - 4 * fi.slots);
    if fi.slots > 0 {
      FrameSim(fi, w);
    }
    assert DataAll(frame, w) == Some(u);
    t := CopySim(fi.params, args, u);
    DataAllAppend(frame, CopyParams(fi.params), w);
    ModOnce(u.sp);
    var locals := EntryLocals(fi, args, w);
    forall i | 0 <= i < fi.slots
      ensures Read(t.mem, t.sp + 4 * i) == locals[i] && 0 <= locals[i] < TWO32
    {
      if i < fi.params {
        assert Read(t.mem, u.sp + 4 * i) == args[i];
      } else {
        assert Read(t.mem, u.sp + 4 * i) == Read(w.mem, u.sp + 4 * i);
      }
    }
  }

  /** What the caller of a finished call finds: its shadow-stack pointer, and its memory outside
      the callee's frame below it and the scratch words. */
  ghost predicate Back(fi: FuncInfo, w: WState, e: WConf) {
    && e.Finished? && e.sp == w.sp
    && forall a {:trigger Read(e.mem, a)} :: !InFrame(fi, w.sp - 4 * fi.slots, a) && !InScratch(fi, a) ==>
         Read(e.mem, a) == Read(w.mem, a)
  }

  /** A called function, prologue included, returns what the labelled body returns when its
      other locals start with the words the memory happens to hold. When the body ends in a
      return, the caller gets its frame and its memory back. */
  lemma FunctionPreserves(fi: FuncInfo, items: seq<Item>, V: set<int>, args: seq<int>, w: WState, r: seq<int>)
    requires TaggedBody(fi, items, V) && Called(fi, args, w) && fi.rc <= MAX_RESULTS
    requires ConstsBelow(Flatten(items), TWO32)
    ensures FlatGives(items, EntryLocals(fi, args, w), r) <==> WasmGives(fi.rc, Code(FuncCode(fi, items), [], w), r)
    ensures forall n: nat :: WRun(fi.rc, Code(FuncCode(fi, items), [], w), n) != Trapped
    ensures EndsInReturn(Flatten(items)) ==>
              forall n: nat {:trigger WRun(fi.rc, Code(FuncCode(fi, items), [], w), n)} ::
                WRun(fi.rc, Code(FuncCode(fi, items), [], w), n).Finished? ==>
                  Back(fi, w, WRun(fi.rc, Code(FuncCode(fi, items), [], w), n))
  {
    hide WRun, Run, Flatten, Wrap, EntryLocals, Prologue, EndsInReturn, ConstsBelow, Left, Back, TaggedBody, KeptBut;
    var t := PrologueSim(fi, args, w);
    var c, a := Code(FuncCode(fi, items), [], w), |Prologue(fi)|;
    WRunData(fi.rc, Prologue(fi), BodyCode(fi, items), [], w);
    StackifierPreserves(fi, items, V, EntryLocals(fi, args, w), t, r);
    Later(fi.rc, c, a, Code(BodyCode(fi, items), [], t), r);
    forall n: nat
      ensures WRun(fi.rc, c, n) != Trapped
      ensures EndsInReturn(Flatten(items)) && WRun(fi.rc, c, n).Finished? ==> Back(fi, w, WRun(fi.rc, c, n))
    {
      if !WRun(fi.rc, c, n).Code? {
        Simulation.WNotBefore(fi.rc, c, n, a);
        WRunAdd(fi.rc, c, a, n - a);
        assert WasmRun(fi, items, t, n - a) != Trapped;
        if EndsInReturn(Flatten(items)) && WRun(fi.rc, c, n).Finished? {
          LeftIsBack(fi, w, t, WRun(fi.rc, c, n));
        }
      }
    }
  }

  lemma LeftIsBack(fi: FuncInfo, w: WState, t: WState, e: WConf)
    requires Left(fi, t, e) && t.sp == w.sp - 4 * fi.slots && KeptBut(w.mem, t.mem, t.sp, w.sp) && 0 <= w.sp < TWO32
    ensures Back(fi, w, e)
  {
    ModOnce(w.sp);
    forall a | !InFrame(fi, w.sp - 4 * fi.slots, a) && !InScratch(fi, a)
      ensures Read(e.mem, a) == Read(w.mem, a)
    {
      assert Read(e.mem, a) == Read(t.mem, a);
    }
  }

  /** A run and its own later part give the same results. */
  lemma Later(rc: nat, c: WConf, a: nat, d: WConf, r: seq<int>)
    requires WRun(rc, c, a) == d && d.Code?
    ensures WasmGives(rc, c, r) <==> WasmGives(rc, d, r)
  {
    hide WRun;
    if n: nat :| WRun(rc, c, n).Finished? && WRun(rc, c, n).result == r {
      Simulation.WNotBefore(rc, c, n, a);
      WRunAdd(rc, c, a, n - a);
      assert WRun(rc, d, n - a).Finished?;
    }
    if n: nat :| WRun(rc, d, n).Finished? && WRun(rc, d, n).result == r {
      WRunAdd(rc, c, a, n);
      assert WRun(rc, c, a + n).Finished?;
    }
  }
}
