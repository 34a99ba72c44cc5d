/** The pre-scan and the sort of a level: exactly the labels that some jump of the level
    targets get a block, the furthest one outermost. */
module ScanShape {
  import opened Ir
  import opened Shape
  import opened Structured
  import opened Stackify
  import opened Searches

  /** Labels of the short circuits of a level, at any depth. */
  function ShortLabels(items: seq<Item>): set<int>
    decreases items
  {
    if items == [] then {} else ShortsOf(items[0]) + ShortLabels(items[1..])
  }

  function ShortsOf(it: Item): set<int>
    decreases it
  {
    if it.Short? then {it.tgt, it.end} + ShortLabels(it.rhs) else {}
  }

  /** Pass 1 has told loop heads and forward targets apart. */
  predicate Classified(items: seq<Item>, K: Kinds)
    decreases items
  {
    items == [] || (ClassifiedItem(items[0], K) && Classified(items[1..], K))
  }

  predicate ClassifiedItem(it: Item, K: Kinds)
    decreases it
  {
    match it
    case Lab(l) => l !in K.headers
    case Loop(h, b, body) =>
      h in K.headers && b !in K.headers && Targets(body) <= K.targets && Classified(body, K)
    case Short(_, _, _, _, _) => ShortsOf(it) !! K.headers
    case _ => true
  }

  lemma {:induction false} TopNotHeader(items: seq<Item>, K: Kinds)
    requires Classified(items, K)
    ensures TopLabs(items) !! K.headers
    decreases items
  {
    if items != [] {
      TopNotHeader(items[1..], K);
    }
  }

  lemma {:induction false} ShortInCode(items: seq<Item>)
    ensures ShortLabels(items) <= CodeLabels(Flatten(items))
    decreases items
  {
    if items != [] {
      LabelsAppend(FlatItem(items[0]), Flatten(items[1..]));
      ShortInCode(items[1..]);
      ShortsInItem(items[0]);
    }
  }

  lemma {:induction false} ShortsInItem(it: Item)
    ensures ShortsOf(it) <= CodeLabels(FlatItem(it))
    decreases it
  {
    if it.Short? {
      ShortLabelsIn(it);
      ShortInCode(it.rhs);
    }
  }

  /** The targets after one item of the pre-scan. */
  function NewFwd(it: Item, rest: seq<Item>, at: nat, fwd: seq<FwdTarget>): seq<FwdTarget> {
    if IsGoto(it) && it.l in TopLabs(rest) && !HasLabel(fwd, it.l)
    then fwd + [FwdTarget(it.l, at + 1 + PosOf(rest, it.l))] else fwd
  }

  /** What the pre-scan of a level collects. */
  function Collect(items: seq<Item>, at: nat, fwd: seq<FwdTarget>): seq<FwdTarget>
    decreases items
  {
    if items == [] then fwd
    else Collect(items[1..], at + |FlatItem(items[0])|, NewFwd(items[0], items[1..], at, fwd))
  }

  /** Inside the right operand of a short circuit nothing is collected. */
  lemma {:induction false} ScanRhs(items: seq<Item>, rest: seq<Inst>, at: nat, K: Kinds, a: Scan)
    requires RhsOK(items) && ShortLabels(items) !! K.headers
    requires DistinctLabels(Flatten(items) + rest)
    ensures PreScan(Flatten(items) + rest, at, K, a)
         == PreScan(rest, at + |Flatten(items)|, K, a.(excluded := a.excluded + ShortLabels(items)))
    decreases items, 1
  {
    hide PreScan, DistinctLabels, FlatItem, ShortsOf, Flatten, ShortLabels, RhsOK;
    if items == [] {
      NoItems(a);
      assert [] + rest == rest;
    } else {
      RhsTail(items);
      RhsShorts(items, K, a);
      ScanRhsHead(items, rest, at, K, a);
      ScanRhs(items[1..], rest, at + |FlatItem(items[0])|, K, a.(excluded := a.excluded + ShortsOf(items[0])));
    }
  }

  lemma NoItems(a: Scan)
    ensures Flatten([]) == [] && a.excluded + ShortLabels([]) == a.excluded && TopLabs([]) == {}
  {
  }

  lemma UnionAssoc(a: set<int>, b: set<int>, c: set<int>)
    ensures a + b + c == a + (b + c)
  {
  }

  lemma Apart(a: set<int>, b: set<int>, c: set<int>, d: set<int>)
    requires a !! d && c <= d && b !! c
    ensures a !! c && a + b !! c
  {
  }

  lemma RhsTail(items: seq<Item>)
    requires items != [] && RhsOK(items)
    ensures ShortLabels(items) == ShortsOf(items[0]) + ShortLabels(items[1..])
    ensures RhsItemOK(items[0]) && RhsOK(items[1..])
  {
  }

  lemma RhsShorts(items: seq<Item>, K: Kinds, a: Scan)
    requires items != [] && ShortLabels(items) == ShortsOf(items[0]) + ShortLabels(items[1..])
    requires ShortLabels(items) !! K.headers
    ensures ShortsOf(items[0]) !! K.headers && ShortLabels(items[1..]) !! K.headers
    ensures a.excluded + ShortsOf(items[0]) + ShortLabels(items[1..]) == a.excluded + ShortLabels(items)
  {
    hide ShortLabels, ShortsOf;
    UnionAssoc(a.excluded, ShortsOf(items[0]), ShortLabels(items[1..]));
  }

  lemma {:induction false} ScanRhsHead(items: seq<Item>, rest: seq<Inst>, at: nat, K: Kinds, a: Scan)
    requires items != [] && RhsOK(items) && ShortsOf(items[0]) !! K.headers
    requires DistinctLabels(Flatten(items) + rest)
    ensures |Flatten(items)| == |FlatItem(items[0])| + |Flatten(items[1..])|
    ensures DistinctLabels(Flatten(items[1..]) + rest)
    ensures PreScan(Flatten(items) + rest, at, K, a)
         == PreScan(Flatten(items[1..]) + rest, at + |FlatItem(items[0])|, K,
                    a.(excluded := a.excluded + ShortsOf(items[0])))
    decreases items, 0
  {
    var it := items[0];
    var tail := Flatten(items[1..]) + rest;
    assert RhsItemOK(it);
    hide PreScan, DistinctLabels, FlatItem, ShortLabels;
    Assoc(FlatItem(it), Flatten(items[1..]), rest);
    DistinctParts(FlatItem(it), tail);
    ScanRhsItem(it, tail, at, K, a);
  }

  lemma {:induction false} ScanRhsItem(it: Item, tail: seq<Inst>, at: nat, K: Kinds, a: Scan)
    requires RhsItemOK(it) && DistinctLabels(FlatItem(it) + tail) && ShortsOf(it) !! K.headers
    ensures PreScan(FlatItem(it) + tail, at, K, a)
         == PreScan(tail, at + |FlatItem(it)|, K, a.(excluded := a.excluded + ShortsOf(it)))
    decreases it, 2
  {
    hide PreScan, DistinctLabels;
    if it.Short? {
      ScanShort(it, tail, at, K, a);
    } else {
      assert FlatItem(it) == [it.op];
      ScanPlain(it.op, tail, at, K, a);
      assert a.excluded + {} == a.excluded;
    }
  }

  lemma ScanPlain(op: Inst, tail: seq<Inst>, at: nat, K: Kinds, a: Scan)
    requires !op.Label? && !IsJump(op)
    ensures PreScan([op] + tail, at, K, a) == PreScan(tail, at + 1, K, a)
  {
    assert ([op] + tail)[1..] == tail;
  }

  lemma ScanLabel(l: int, tail: seq<Inst>, at: nat, K: Kinds, a: Scan)
    requires l !in K.headers
    ensures PreScan([Label(l)] + tail, at, K, a) == PreScan(tail, at + 1, K, a)
  {
    assert ([Label(l)] + tail)[1..] == tail;
  }

  lemma ScanExcluded(l: int, tail: seq<Inst>, at: nat, K: Kinds, a: Scan)
    requires l in a.excluded
    ensures PreScan([Jmp(l)] + tail, at, K, a) == PreScan(tail, at + 1, K, a)
  {
    assert ([Jmp(l)] + tail)[1..] == tail;
  }

  lemma {:induction false} ScanShort(it: Item, tail: seq<Inst>, at: nat, K: Kinds, a: Scan)
    requires it.Short? && RhsOK(it.rhs)
    requires ShortsOf(it) !! K.headers && DistinctLabels(FlatItem(it) + tail)
    ensures PreScan(FlatItem(it) + tail, at, K, a)
         == PreScan(tail, at + |FlatItem(it)|, K, a.(excluded := a.excluded + ShortsOf(it)))
    decreases it, 1
  {
    hide PreScan, FlatItem, Flatten, DetectShort, DistinctLabels, RhsOK, ShortLabels;
    var h := if it.onTrue then JmpIf(it.tgt) else JmpIfNot(it.tgt);
    var n := |Flatten(it.rhs)|;
    var after := [Jmp(it.end), Label(it.tgt), ConstBool(it.k), Label(it.end)] + tail;
    var a1 := a.(excluded := a.excluded + {it.tgt, it.end});
    var a2 := a1.(excluded := a1.excluded + ShortLabels(it.rhs));
    ShortStart(it, tail, h, after);
    ScanDetected(h, it.end, n + 2, Flatten(it.rhs) + after, at, K, a);
    DistinctParts([h], Flatten(it.rhs) + after);
    ScanRhs(it.rhs, after, at + 1, K, a1);
    ScanAfter(it, tail, at + 1 + n, K, a2);
    assert a2.excluded == a.excluded + ShortsOf(it);
  }

  lemma ShortStart(it: Item, tail: seq<Inst>, h: Inst, after: seq<Inst>)
    requires it.Short? && DistinctLabels(FlatItem(it) + tail)
    requires h == (if it.onTrue then JmpIf(it.tgt) else JmpIfNot(it.tgt))
    requires after == [Jmp(it.end), Label(it.tgt), ConstBool(it.k), Label(it.end)] + tail
    ensures FlatItem(it) + tail == [h] + (Flatten(it.rhs) + after)
    ensures DetectShort([h] + (Flatten(it.rhs) + after)) == Some(ShortInfo(|Flatten(it.rhs)| + 2, it.end))
    ensures |FlatItem(it)| == |Flatten(it.rhs)| + 5
  {
    ShortFound(it, tail);
    var s := FlatItem(it) + tail;
    assert s == [s[0]] + s[1..];
  }

  lemma ScanDetected(h: Inst, end: int, t: nat, r: seq<Inst>, at: nat, K: Kinds, a: Scan)
    requires h.JmpIf? || h.JmpIfNot?
    requires DetectShort([h] + r) == Some(ShortInfo(t, end))
    ensures PreScan([h] + r, at, K, a) == PreScan(r, at + 1, K, a.(excluded := a.excluded + {h.l, end}))
  {
    assert ([h] + r)[1..] == r;
  }

  lemma ScanAfter(it: Item, tail: seq<Inst>, at: nat, K: Kinds, a: Scan)
    requires it.Short? && it.tgt !in K.headers && it.end !in K.headers && it.end in a.excluded
    ensures PreScan([Jmp(it.end), Label(it.tgt), ConstBool(it.k), Label(it.end)] + tail, at, K, a)
         == PreScan(tail, at + 4, K, a)
  {
    var t3 := [Label(it.end)] + tail;
    var t2 := [ConstBool(it.k)] + t3;
    var t1 := [Label(it.tgt)] + t2;
    assert [Jmp(it.end), Label(it.tgt), ConstBool(it.k), Label(it.end)] + tail == [Jmp(it.end)] + t1;
    ScanExcluded(it.end, t1, at, K, a);
    ScanLabel(it.tgt, t2, at + 1, K, a);
    ScanPlain(ConstBool(it.k), t3, at + 2, K, a);
    ScanLabel(it.end, tail, at + 3, K, a);
  }

  lemma {:induction false} ScanLoop(it: Item, rest: seq<Item>, loop: LoopOf, at: nat, K: Kinds, a: Scan)
    requires it.Loop? && ItemOK(it, rest, loop) && LevelOK(rest, loop)
    requires DistinctLabels(FlatItem(it) + Flatten(rest))
    requires loop.Some? ==> it.head != loop.value.0 && it.head != loop.value.1
    requires it.head in K.headers && it.brk !in K.headers
    ensures PreScan(FlatItem(it) + Flatten(rest), at, K, a) == PreScan(Flatten(rest), at + |FlatItem(it)|, K, a)
  {
    var s, n := FlatItem(it) + Flatten(rest), |FlatItem(it)| - 1;
    hide Flatten, FlatItem, FindBreak, LoopLength, PreScan, DistinctLabels, LevelOK;
    LoopFound(it, rest, loop);
    ScanSkip(s, it.brk, n, at, K, a);
    ScanLabel(it.brk, Flatten(rest), at + n, K, a);
  }

  lemma ScanSkip(s: seq<Inst>, brk: int, n: nat, at: nat, K: Kinds, a: Scan)
    requires s != [] && s[0].Label? && s[0].l in K.headers
    requires FindBreak(s[1..], s[0].l) == brk && LoopLength(s, brk) == n
    ensures PreScan(s, at, K, a) == PreScan(s[n..], at + n, K, a)
  {
  }

  // ----- a whole level -----

  /** The labels of the enclosing loop, as a level knows them. */
  ghost predicate LoopKnown(items: seq<Item>, loop: LoopOf, K: Kinds) {
    loop.Some? ==>
      && loop.value.0 in K.headers
      && loop.value.0 !in CodeLabels(Flatten(items))
      && loop.value.1 !in CodeLabels(Flatten(items))
  }

  lemma LoopKnownRest(items: seq<Item>, loop: LoopOf, K: Kinds)
    requires items != [] && LoopKnown(items, loop, K)
    ensures LoopKnown(items[1..], loop, K)
  {
    LabelsAppend(FlatItem(items[0]), Flatten(items[1..]));
  }

  lemma {:induction false} ScanLevel(items: seq<Item>, loop: LoopOf, at: nat, K: Kinds, a: Scan)
    requires LevelOK(items, loop) && DistinctLabels(Flatten(items))
    requires Classified(items, K) && LoopKnown(items, loop, K) && a.excluded !! TopLabs(items)
    ensures PreScan(Flatten(items), at, K, a)
         == Scan(Collect(items, at, a.fwd), a.excluded + ShortLabels(items))
    decreases items
  {
    hide PreScan, DistinctLabels, FlatItem, ShortsOf, LoopKnown, NewFwd, Classified, ClassifiedItem, LevelOK, ItemOK,
      HasLabel, TopLabs, ShortLabels, Flatten, Collect;
    if items == [] {
      NoItems(a);
      ScanNothing(at, K, a);
    } else {
      var it, rest := items[0], items[1..];
      var a' := Scan(NewFwd(it, rest, at, a.fwd), a.excluded + ShortsOf(it));
      LevelHead(items, loop, K);
      UnionAssoc(a.excluded, ShortsOf(it), ShortLabels(rest));
      Apart(a.excluded, ShortsOf(it), TopLabs(rest), TopLabs(items));
      ScanItem(it, rest, loop, at, K, a);
      ScanLevel(rest, loop, at + |FlatItem(it)|, K, a');
      CollectHead(items, at, a.fwd);
    }
  }

  lemma ScanNothing(at: nat, K: Kinds, a: Scan)
    ensures PreScan([], at, K, a) == a && Collect([], at, a.fwd) == a.fwd
  {
  }

  lemma CollectHead(items: seq<Item>, at: nat, fwd: seq<FwdTarget>)
    requires items != []
    ensures Collect(items, at, fwd)
         == Collect(items[1..], at + |FlatItem(items[0])|, NewFwd(items[0], items[1..], at, fwd))
  {
  }

  /** What a level's facts say about its first item and the rest. */
  lemma LevelHead(items: seq<Item>, loop: LoopOf, K: Kinds)
    requires items != [] && LevelOK(items, loop) && DistinctLabels(Flatten(items))
    requires Classified(items, K) && LoopKnown(items, loop, K)
    ensures var it, rest := items[0], items[1..];
      && ItemOK(it, rest, loop) && LevelOK(rest, loop) && LoopKnown(rest, loop, K)
      && DistinctLabels(FlatItem(it) + Flatten(rest)) && DistinctLabels(Flatten(rest))
      && ClassifiedItem(it, K) && Classified(rest, K)
      && TopLabs(rest) <= TopLabs(items) && ShortsOf(it) !! TopLabs(rest)
      && (loop.Some? ==> it.Loop? ==> it.head != loop.value.0 && it.head != loop.value.1)
      && ShortLabels(items) == ShortsOf(it) + ShortLabels(rest)
      && Flatten(items) == FlatItem(it) + Flatten(rest)
  {
    var it, rest := items[0], items[1..];
    LoopKnownRest(items, loop, K);
    DistinctParts(FlatItem(it), Flatten(rest));
    TopInCode(rest);
    ShortsInItem(it);
    if it.Loop? {
      HasCodeLabel(Flatten(items), 0);
    }
  }

  lemma ScanItem(it: Item, rest: seq<Item>, loop: LoopOf, at: nat, K: Kinds, a: Scan)
    requires ItemOK(it, rest, loop) && LevelOK(rest, loop) && DistinctLabels(Flatten(rest))
    requires DistinctLabels(FlatItem(it) + Flatten(rest))
    requires ClassifiedItem(it, K) && Classified(rest, K) && LoopKnown(rest, loop, K) && a.excluded !! TopLabs(rest)
    requires it.Loop? && loop.Some? ==> it.head != loop.value.0 && it.head != loop.value.1
    ensures PreScan(FlatItem(it) + Flatten(rest), at, K, a)
         == PreScan(Flatten(rest), at + |FlatItem(it)|, K,
                    Scan(NewFwd(it, rest, at, a.fwd), a.excluded + ShortsOf(it)))
  {
    assert a.excluded + {} == a.excluded;
    match it
    case Plain(op) =>
      ScanPlain(op, Flatten(rest), at, K, a);
    case Lab(l) =>
      ScanLabel(l, Flatten(rest), at, K, a);
    case Loop(h, b, body) =>
      ScanLoop(it, rest, loop, at, K, a);
    case Short(onTrue, t, e, k, rhs) =>
      ScanShort(it, Flatten(rest), at, K, a);
    case _ =>
      hide PreScan, Flatten, DistinctLabels, LevelOK, Classified, LoopKnown, NewFwd;
      ScanGoto(it, rest, loop, at, K, a);
  }

  function GotoInst(it: Item): Inst
    requires IsGoto(it)
  {
    match it
    case Goto(l) => Jmp(l)
    case GotoIf(l) => JmpIf(l)
    case GotoIfNot(l) => JmpIfNot(l)
  }

  lemma ScanGoto(it: Item, rest: seq<Item>, loop: LoopOf, at: nat, K: Kinds, a: Scan)
    requires IsGoto(it) && ItemOK(it, rest, loop) && LevelOK(rest, loop) && DistinctLabels(Flatten(rest))
    requires Classified(rest, K) && LoopKnown(rest, loop, K) && a.excluded !! TopLabs(rest)
    ensures PreScan(FlatItem(it) + Flatten(rest), at, K, a)
         == PreScan(Flatten(rest), at + 1, K, Scan(NewFwd(it, rest, at, a.fwd), a.excluded))
  {
    hide PreScan, Flatten, DistinctLabels, LevelOK, Classified, LoopKnown, DetectShort, FindLabel, ItemOK,
      TopLabs, HasLabel, PosOf;
    var h := GotoInst(it);
    assert FlatItem(it) == [h];
    GotoSearch(it, rest, loop, K, h);
    TopNotHeader(rest, K);
    ScanJump(h, Flatten(rest), at, K, a);
  }

  lemma GotoSearch(it: Item, rest: seq<Item>, loop: LoopOf, K: Kinds, h: Inst)
    requires IsGoto(it) && h == GotoInst(it)
    requires ItemOK(it, rest, loop) && LevelOK(rest, loop) && DistinctLabels(Flatten(rest)) && LoopKnown(rest, loop, K)
    ensures it.l in TopLabs(rest) ==> FindLabel(Flatten(rest), it.l) == PosOf(rest, it.l)
    ensures it.l !in TopLabs(rest) ==> FindLabel(Flatten(rest), it.l) == -1
    ensures !it.Goto? ==> DetectShort([h] + Flatten(rest)) == None
  {
    hide FindLabel, DetectShort, PosOf;
    TopInCode(rest);
    if !it.Goto? {
      NotShort(it, rest, loop, h);
    } else if it.l in TopLabs(rest) {
      FindTop(rest, it.l);
    } else {
      FindNone(Flatten(rest), it.l);
    }
  }

  lemma ScanJump(h: Inst, r: seq<Inst>, at: nat, K: Kinds, a: Scan)
    requires IsJump(h) && (!h.Jmp? ==> DetectShort([h] + r) == None)
    ensures var p := FindLabel(r, h.l);
      PreScan([h] + r, at, K, a) ==
        PreScan(r, at + 1, K,
                if h.l !in a.excluded && h.l !in K.headers && p >= 0 && !HasLabel(a.fwd, h.l)
                then a.(fwd := a.fwd + [FwdTarget(h.l, at + 1 + p)]) else a)
  {
    assert ([h] + r)[1..] == r;
  }
}
