/** The stackifier's searches, on the shapes the lowering emits: they find the end of
    every loop and every short circuit, and take nothing else for one. */
module Searches {
  import opened Ir
  import opened Shape
  import opened Stackify

  // ----- labels of flat code -----

  lemma {:induction false} LabelsAppend(a: seq<Inst>, b: seq<Inst>)
    ensures CodeLabels(a + b) == CodeLabels(a) + CodeLabels(b)
  {
    if a == [] {
      assert a + b == b;
    } else {
      assert (a + b)[0] == a[0] && (a + b)[1..] == a[1..] + b;
      LabelsAppend(a[1..], b);
    }
  }

  lemma {:induction false} HasCodeLabel(s: seq<Inst>, i: nat)
    requires i < |s| && s[i].Label?
    ensures s[i].l in CodeLabels(s)
  {
    if i > 0 {
      HasCodeLabel(s[1..], i - 1);
    }
  }

  lemma {:induction false} FindCodeLabel(s: seq<Inst>, l: int) returns (i: nat)
    requires l in CodeLabels(s)
    ensures i < |s| && s[i] == Label(l)
  {
    if s[0] == Label(l) {
      i := 0;
    } else {
      i := FindCodeLabel(s[1..], l);
      i := i + 1;
    }
  }

  lemma DistinctParts(a: seq<Inst>, b: seq<Inst>)
    requires DistinctLabels(a + b)
    ensures DistinctLabels(a) && DistinctLabels(b)
    ensures CodeLabels(a) !! CodeLabels(b)
  {
    var s := a + b;
    forall i, j | 0 <= i < j < |a| && a[i].Label? && a[j].Label?
      ensures a[i].l != a[j].l
    {
      assert s[i] == a[i] && s[j] == a[j];
    }
    forall i, j | 0 <= i < j < |b| && b[i].Label? && b[j].Label?
      ensures b[i].l != b[j].l
    {
      assert s[|a| + i] == b[i] && s[|a| + j] == b[j];
    }
    forall l | l in CodeLabels(a)
      ensures l !in CodeLabels(b)
    {
      if l in CodeLabels(b) {
        var i := FindCodeLabel(a, l);
        var j := FindCodeLabel(b, l);
        Apart(a, b, i, j);
      }
    }
  }

  lemma Apart(a: seq<Inst>, b: seq<Inst>, i: nat, j: nat)
    requires DistinctLabels(a + b)
    requires i < |a| && j < |b| && a[i].Label? && b[j].Label?
    ensures a[i] != b[j]
  {
    assert (a + b)[i] == a[i] && (a + b)[|a| + j] == b[j];
  }

  // ----- the searches -----

  lemma {:induction false} FindNone(s: seq<Inst>, l: int)
    requires l !in CodeLabels(s)
    ensures FindLabel(s, l) == -1
  {
    if s != [] {
      FindNone(s[1..], l);
    }
  }

  lemma {:induction false} FindFirst(a: seq<Inst>, l: int, b: seq<Inst>)
    requires l !in CodeLabels(a)
    ensures FindLabel(a + [Label(l)] + b, l) == |a|
  {
    var s := a + [Label(l)] + b;
    if a != [] {
      assert s[1..] == a[1..] + [Label(l)] + b;
      FindFirst(a[1..], l, b);
    }
  }

  ghost predicate NoJmp(s: seq<Inst>, l: int) {
    forall i :: 0 <= i < |s| ==> s[i] != Jmp(l)
  }

  lemma {:induction false} LastFound(a: seq<Inst>, l: int, b: seq<Inst>)
    requires NoJmp(b, l)
    ensures LastJmp(a + [Jmp(l)] + b, l) == |a|
    decreases |b|
  {
    var s := a + [Jmp(l)] + b;
    if b != [] {
      var n := |b| - 1;
      assert s[..|s| - 1] == a + [Jmp(l)] + b[..n];
      LastFound(a, l, b[..n]);
    }
  }

  /** Jumps of a level go to labels defined in it or to those of the enclosing loop. */
  lemma {:induction false} JumpsStay(items: seq<Item>, loop: LoopOf, l: int)
    requires LevelOK(items, loop) && l !in CodeLabels(Flatten(items))
    requires loop.Some? ==> l != loop.value.0 && l != loop.value.1
    ensures NoJmp(Flatten(items), l)
    decreases items
  {
    if items != [] {
      LabelsAppend(FlatItem(items[0]), Flatten(items[1..]));
      JumpsStayItem(items[0], items[1..], loop, l);
      JumpsStay(items[1..], loop, l);
    }
  }

  lemma {:induction false} TopInCode(items: seq<Item>)
    ensures TopLabs(items) <= CodeLabels(Flatten(items))
    decreases items
  {
    if items != [] {
      LabelsAppend(FlatItem(items[0]), Flatten(items[1..]));
      TopInCode(items[1..]);
    }
  }

  lemma {:induction false} JumpsStayItem(it: Item, rest: seq<Item>, loop: LoopOf, l: int)
    requires ItemOK(it, rest, loop) && l !in CodeLabels(FlatItem(it)) && l !in CodeLabels(Flatten(rest))
    requires loop.Some? ==> l != loop.value.0 && l != loop.value.1
    ensures NoJmp(FlatItem(it), l)
    decreases it
  {
    TopInCode(rest);
    match it
    case Loop(h, b, body) =>
      LabelsAppend([Label(h)] + Flatten(body), [Label(b)]);
      LabelsAppend([Label(h)], Flatten(body));
      JumpsStay(body, Some((h, b)), l);
    case Short(onTrue, t, e, k, rhs) =>
      ShortLabelsIn(it);
      RhsJumpsStay(rhs, l);
    case _ =>
  }

  lemma {:induction false} RhsJumpsStay(items: seq<Item>, l: int)
    requires RhsOK(items) && l !in CodeLabels(Flatten(items))
    ensures NoJmp(Flatten(items), l)
    decreases items
  {
    if items != [] {
      var it := items[0];
      LabelsAppend(FlatItem(it), Flatten(items[1..]));
      assert RhsItemOK(it);
      if it.Short? {
        ShortLabelsIn(it);
        RhsJumpsStay(it.rhs, l);
      }
      RhsJumpsStay(items[1..], l);
    }
  }

  lemma ShortLabelsIn(it: Item)
    requires it.Short?
    ensures CodeLabels(FlatItem(it)) == CodeLabels(Flatten(it.rhs)) + {it.tgt, it.end}
  {
    var h := [if it.onTrue then JmpIf(it.tgt) else JmpIfNot(it.tgt)];
    var b := [Jmp(it.end), Label(it.tgt), ConstBool(it.k), Label(it.end)];
    LabelsAppend(h + Flatten(it.rhs), b);
    LabelsAppend(h, Flatten(it.rhs));
    assert CodeLabels(b) == {it.tgt, it.end} by {
      assert b[1..] == [Label(it.tgt), ConstBool(it.k), Label(it.end)];
      assert b[1..][1..] == [ConstBool(it.k), Label(it.end)];
      assert b[1..][1..][1..] == [Label(it.end)];
      assert CodeLabels(b) == CodeLabels(b[1..]) == {it.tgt} + CodeLabels(b[1..][1..]);
      assert CodeLabels(b[1..][1..]) == CodeLabels(b[1..][1..][1..]) == {it.end};
    }
  }

  /** The end of a loop is found, and the break label with it. */
  lemma LoopFound(it: Item, rest: seq<Item>, loop: LoopOf)
    requires it.Loop? && ItemOK(it, rest, loop) && LevelOK(rest, loop)
    requires DistinctLabels(FlatItem(it) + Flatten(rest))
    requires loop.Some? ==> it.head != loop.value.0 && it.head != loop.value.1
    ensures var s := FlatItem(it) + Flatten(rest);
      && s != [] && s[0] == Label(it.head)
      && FindBreak(s[1..], it.head) == it.brk
      && LoopLength(s, it.brk) == |FlatItem(it)| - 1
      && s[1..|FlatItem(it)| - 1] == Flatten(it.body)
      && s[|FlatItem(it)| - 1..] == [Label(it.brk)] + Flatten(rest)
  {
    var init := LoopInit(it);
    var s := FlatItem(it) + Flatten(rest);
    LoopPieces(it, rest, init);
    DistinctParts(FlatItem(it), Flatten(rest));
    LabelsAppend([Label(it.head)] + Flatten(it.body), [Label(it.brk)]);
    LabelsAppend([Label(it.head)], Flatten(it.body));
    JumpsStay(rest, loop, it.head);
    assert s == [Label(it.head)] + (Flatten(it.body) + ([Label(it.brk)] + Flatten(rest)));
    DistinctParts([Label(it.head)], Flatten(it.body) + ([Label(it.brk)] + Flatten(rest)));
    DistinctParts(Flatten(it.body), [Label(it.brk)] + Flatten(rest));
    LabelsAppend([Label(it.brk)], Flatten(rest));
    LoopSearch(it.head, it.brk, init, Flatten(rest), s[1..]);
  }

  lemma LoopInit(it: Item) returns (init: seq<Inst>)
    requires it.Loop? && it.body != [] && it.body[|it.body| - 1] == Goto(it.head)
    ensures Flatten(it.body) == init + [Jmp(it.head)]
  {
    var n := |it.body| - 1;
    init := Flatten(it.body[..n]);
    assert it.body == it.body[..n] + [Goto(it.head)];
    FlattenAppend(it.body[..n], [Goto(it.head)]);
    assert Flatten([Goto(it.head)]) == [Jmp(it.head)];
  }

  lemma LoopPieces(it: Item, rest: seq<Item>, init: seq<Inst>)
    requires it.Loop? && Flatten(it.body) == init + [Jmp(it.head)]
    ensures var s, n := FlatItem(it) + Flatten(rest), |FlatItem(it)|;
      && s[0] == Label(it.head) && n == |Flatten(it.body)| + 2
      && s[1..] == init + [Jmp(it.head)] + ([Label(it.brk)] + Flatten(rest))
      && s[1..n - 1] == Flatten(it.body) && s[n - 1..] == [Label(it.brk)] + Flatten(rest)
  {
  }

  lemma LoopSearch(h: int, b: int, init: seq<Inst>, rest: seq<Inst>, s: seq<Inst>)
    requires s == init + [Jmp(h)] + ([Label(b)] + rest) && NoJmp(rest, h) && b !in CodeLabels(init + [Jmp(h)]) && b >= 0
    ensures FindBreak(s, h) == b && FindLabel(s, b) == |init| + 1
  {
    NoJmpCons(b, rest, h);
    SearchBreak(h, b, init, [Label(b)] + rest);
    FindFirst(init + [Jmp(h)], b, rest);
    Assoc(init + [Jmp(h)], [Label(b)], rest);
  }

  lemma Assoc(a: seq<Inst>, b: seq<Inst>, c: seq<Inst>)
    ensures a + b + c == a + (b + c)
  {
  }

  lemma NoJmpCons(b: int, rest: seq<Inst>, h: int)
    requires NoJmp(rest, h)
    ensures NoJmp([Label(b)] + rest, h)
  {
  }

  lemma SearchBreak(h: int, b: int, init: seq<Inst>, after: seq<Inst>)
    requires after != [] && after[0] == Label(b) && NoJmp(after, h)
    ensures FindBreak(init + [Jmp(h)] + after, h) == b
  {
    LastFound(init, h, after);
    assert (init + [Jmp(h)] + after)[|init| + 1] == after[0];
  }

  // ----- short circuits -----

  lemma ShortFound(it: Item, rest: seq<Inst>)
    requires it.Short? && DistinctLabels(FlatItem(it) + rest)
    ensures var s, n := FlatItem(it) + rest, |Flatten(it.rhs)|;
      && s != [] && s[0] == (if it.onTrue then JmpIf(it.tgt) else JmpIfNot(it.tgt))
      && DetectShort(s) == Some(ShortInfo(n + 2, it.end))
      && s[n + 3] == ConstBool(it.k)
      && s[1..n + 1] == Flatten(it.rhs)
      && s[1..] == Flatten(it.rhs) + ([Jmp(it.end), Label(it.tgt), ConstBool(it.k), Label(it.end)] + rest)
      && s[n + 5..] == rest
  {
    var h := [if it.onTrue then JmpIf(it.tgt) else JmpIfNot(it.tgt)];
    var after := [ConstBool(it.k), Label(it.end)] + rest;
    ShortPieces(it, rest, h, after);
    hide FlatItem, Flatten, DetectShort, DistinctLabels;
    TargetFound(h, Flatten(it.rhs) + [Jmp(it.end)], it.tgt, after);
    ShortDetected(FlatItem(it) + rest, |Flatten(it.rhs)| + 2, it);
  }

  lemma TargetFound(h: seq<Inst>, a: seq<Inst>, l: int, after: seq<Inst>)
    requires DistinctLabels(h + (a + [Label(l)] + after))
    ensures FindLabel(a + [Label(l)] + after, l) == |a|
  {
    DistinctParts(h, a + [Label(l)] + after);
    Assoc(a, [Label(l)], after);
    DistinctParts(a, [Label(l)] + after);
    HasCodeLabel([Label(l)] + after, 0);
    FindFirst(a, l, after);
  }

  lemma ShortDetected(s: seq<Inst>, t: nat, it: Item)
    requires it.Short? && 2 <= t && t + 2 < |s|
    requires s[0] == (if it.onTrue then JmpIf(it.tgt) else JmpIfNot(it.tgt))
    requires FindLabel(s[1..], it.tgt) == t - 1
    requires s[t - 1] == Jmp(it.end) && s[t + 1] == ConstBool(it.k) && s[t + 2] == Label(it.end)
    ensures DetectShort(s) == Some(ShortInfo(t, it.end))
  {
  }

  lemma ShortPieces(it: Item, rest: seq<Inst>, h: seq<Inst>, after: seq<Inst>)
    requires it.Short? && h == [if it.onTrue then JmpIf(it.tgt) else JmpIfNot(it.tgt)]
    requires after == [ConstBool(it.k), Label(it.end)] + rest
    ensures var s, n := FlatItem(it) + rest, |Flatten(it.rhs)|;
      && s == h + ((Flatten(it.rhs) + [Jmp(it.end)]) + [Label(it.tgt)] + after)
      && s[0] == h[0] && n + 5 <= |s|
      && s[n + 1] == Jmp(it.end) && s[n + 2] == Label(it.tgt)
      && s[n + 3] == ConstBool(it.k) && s[n + 4] == Label(it.end)
      && s[1..n + 1] == Flatten(it.rhs) && s[n + 5..] == rest
      && s[1..] == (Flatten(it.rhs) + [Jmp(it.end)]) + [Label(it.tgt)] + after
      && s[1..] == Flatten(it.rhs) + ([Jmp(it.end), Label(it.tgt), ConstBool(it.k), Label(it.end)] + rest)
  {
    var r, b := Flatten(it.rhs), [Jmp(it.end), Label(it.tgt), ConstBool(it.k), Label(it.end)];
    assert FlatItem(it) == h + r + b;
    hide Flatten, FlatItem;
    Pieces(h, r, b, rest);
    Regroup(r, Jmp(it.end), Label(it.tgt), ConstBool(it.k), Label(it.end), rest);
  }

  lemma Regroup(r: seq<Inst>, j: Inst, t: Inst, k: Inst, e: Inst, rest: seq<Inst>)
    ensures (r + [j]) + [t] + ([k, e] + rest) == r + ([j, t, k, e] + rest)
  {
  }

  lemma Pieces(h: seq<Inst>, r: seq<Inst>, b: seq<Inst>, rest: seq<Inst>)
    requires |h| == 1 && |b| == 4
    ensures var s, n := h + r + b + rest, |r|;
      && s == h + (r + (b + rest)) && s[0] == h[0] && n + 5 <= |s|
      && s[n + 1] == b[0] && s[n + 2] == b[1] && s[n + 3] == b[2] && s[n + 4] == b[3]
      && s[1..n + 1] == r && s[n + 5..] == rest && s[1..] == r + (b + rest)
  {
    PieceElements(h, r, b, rest);
    PieceSlices(h, r, b, rest);
    Grouped(h, r, b, rest);
  }

  lemma PieceElements(h: seq<Inst>, r: seq<Inst>, b: seq<Inst>, rest: seq<Inst>)
    requires |h| == 1 && |b| == 4
    ensures var s, n := h + r + b + rest, |r|;
      && s[0] == h[0] && n + 5 <= |s|
      && s[n + 1] == b[0] && s[n + 2] == b[1] && s[n + 3] == b[2] && s[n + 4] == b[3]
  {
  }

  lemma PieceSlices(h: seq<Inst>, r: seq<Inst>, b: seq<Inst>, rest: seq<Inst>)
    requires |h| == 1 && |b| == 4
    ensures var s, n := h + r + b + rest, |r|; s[1..n + 1] == r && s[n + 5..] == rest
  {
  }

  lemma Grouped(h: seq<Inst>, r: seq<Inst>, b: seq<Inst>, rest: seq<Inst>)
    requires |h| == 1
    ensures var s := h + r + b + rest; s == h + (r + (b + rest)) && s[1..] == r + (b + rest)
  {
  }

  /** Where a label of the level stands in the level's flat code. */
  function PosOf(items: seq<Item>, l: int): (p: nat)
    requires l in TopLabs(items)
    ensures p < |Flatten(items)| && Flatten(items)[p] == Label(l)
    decreases items
  {
    if items[0] == Lab(l) then 0 else |FlatItem(items[0])| + PosOf(items[1..], l)
  }

  lemma {:induction false} FindTop(items: seq<Item>, l: int)
    requires l in TopLabs(items) && DistinctLabels(Flatten(items))
    ensures FindLabel(Flatten(items), l) == PosOf(items, l)
  {
    var s, p := Flatten(items), PosOf(items, l);
    assert s == s[..p] + [Label(l)] + s[p + 1..];
    assert s == s[..p] + s[p..];
    DistinctParts(s[..p], s[p..]);
    HasCodeLabel(s[p..], 0);
    FindFirst(s[..p], l, s[p + 1..]);
  }

  lemma {:induction false} NoConstLabel(items: seq<Item>, loop: LoopOf)
    requires LevelOK(items, loop) && |Flatten(items)| >= 2
    requires Flatten(items)[0].ConstBool? || Flatten(items)[0].ConstI64?
    ensures !Flatten(items)[1].Label?
  {
    assert ItemOK(items[0], items[1..], loop);
    assert IsConst(items[0]);
    assert |items| > 1;
    assert ItemOK(items[1], items[2..], loop);
    assert Flatten(items)[1] == FlatItem(items[1])[0];
  }

  /** The rest of a level after its label l. */
  lemma {:induction false} AfterTop(items: seq<Item>, loop: LoopOf, l: int) returns (b: seq<Item>)
    requires LevelOK(items, loop) && l in TopLabs(items)
    ensures LevelOK(b, loop) && Flatten(items)[PosOf(items, l) + 1..] == Flatten(b)
    decreases items
  {
    if items[0] == Lab(l) {
      b := items[1..];
    } else {
      b := AfterTop(items[1..], loop, l);
      var n := |FlatItem(items[0])|;
      assert Flatten(items)[n..] == Flatten(items[1..]);
      assert Flatten(items)[n + (PosOf(items[1..], l) + 1)..] == Flatten(items[1..])[PosOf(items[1..], l) + 1..];
    }
  }

  /** The conditional jump of an `if` or a loop is not taken for a short circuit. */
  lemma NotShort(it: Item, rest: seq<Item>, loop: LoopOf, h: Inst)
    requires (it.GotoIf? && h == JmpIf(it.l)) || (it.GotoIfNot? && h == JmpIfNot(it.l))
    requires LevelOK(rest, loop) && DistinctLabels(Flatten(rest))
    requires it.l in CodeLabels(Flatten(rest)) ==> it.l in TopLabs(rest)
    ensures DetectShort([h] + Flatten(rest)) == None
    ensures FindLabel(Flatten(rest), it.l) == if it.l in TopLabs(rest) then PosOf(rest, it.l) else -1
  {
    if it.l in TopLabs(rest) {
      FindTop(rest, it.l);
      var b := AfterTop(rest, loop, it.l);
      if |Flatten(b)| >= 2 && (Flatten(b)[0].ConstBool? || Flatten(b)[0].ConstI64?) {
        NoConstLabel(b, loop);
      }
      NotDetected(h, Flatten(rest), PosOf(rest, it.l), Flatten(b));
    } else {
      FindNone(Flatten(rest), it.l);
      assert ([h] + Flatten(rest))[1..] == Flatten(rest);
    }
  }

  lemma NotDetected(h: Inst, r: seq<Inst>, p: nat, b: seq<Inst>)
    requires (h.JmpIf? || h.JmpIfNot?) && FindLabel(r, h.l) == p && p < |r| && r[p + 1..] == b
    requires |b| >= 2 && (b[0].ConstBool? || b[0].ConstI64?) ==> !b[1].Label?
    ensures DetectShort([h] + r) == None
  {
    var s := [h] + r;
    assert s[1..] == r;
    if p + 3 < |s| {
      assert s[p + 2] == b[0] && s[p + 3] == b[1];
    }
  }
}
