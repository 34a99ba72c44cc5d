/** The static operand-stack depth that the compiler keeps while it emits, and the operand
    stack at run time: at every instruction that is reached the two agree, so every label has
    one height, whichever way control gets there. */
module Depths {
  import opened Ir
  import opened Shape

  /** How an instruction changes the static depth. */
  function StackDelta(i: Inst): int {
    match i
    case ConstI64(_) => 1
    case ConstBool(_) => 1
    case LocalGet(_) => 1
    case LocalSet(_) => -1
    case Drop => -1
    case Dup => 1
    case Bin(_) => -1
    case Neg => 0
    case Not => 0
    case Label(_) => 0
    case Jmp(_) => 0
    case JmpIf(_) => -1
    case JmpIfNot(_) => -1
    case Return(n) => 0 - n
  }

  /** The depth before each instruction of an item entered at depth h, and the depth after it.
      The compiler sets the depth back where a branch is joined. */
  function DepthItem(it: Item, h: int): (r: (seq<int>, int))
    ensures |r.0| == |FlatItem(it)|
    decreases it
  {
    match it
    case Plain(op) => ([h], h + StackDelta(op))
    case Lab(_) => ([h], h)
    case Goto(_) => ([h], h)
    case GotoIf(_) => ([h], h - 1)
    case GotoIfNot(_) => ([h], h - 1)
    case Loop(_, _, body) =>
      var b := Depths(body, h);
      ([h] + b.0 + [b.1], b.1)
    case Short(_, _, _, _, rhs) =>
      var b := Depths(rhs, h - 1);
      ([h] + b.0 + [b.1, h - 1, h - 1, h], h)
  }

  function Depths(items: seq<Item>, h: int): (r: (seq<int>, int))
    ensures |r.0| == |Flatten(items)|
    decreases items
  {
    if items == [] then ([], h)
    else
      var a := DepthItem(items[0], h);
      var b := Depths(items[1..], a.1);
      (a.0 + b.0, b.1)
  }

  lemma DepthsFront(items: seq<Item>, h: int)
    requires items != []
    ensures var a := DepthItem(items[0], h);
      var b := Depths(items[1..], a.1);
      Depths(items, h) == (a.0 + b.0, b.1)
    ensures Flatten(items) == FlatItem(items[0]) + Flatten(items[1..])
  {
    hide DepthItem, FlatItem;
  }

  lemma {:induction false} DepthsAppend(a: seq<Item>, b: seq<Item>, h: int)
    ensures var x := Depths(a, h);
      var y := Depths(b, x.1);
      Depths(a + b, h) == (x.0 + y.0, y.1)
  {
    hide DepthItem, FlatItem, Flatten;
    if a == [] {
      assert a + b == b && [] + Depths(b, h).0 == Depths(b, h).0;
    } else {
      assert (a + b)[0] == a[0] && (a + b)[1..] == a[1..] + b;
      var d := DepthItem(a[0], h);
      DepthsAppend(a[1..], b, d.1);
      var x := Depths(a[1..], d.1);
      var y := Depths(b, x.1);
      assert Depths(a, h) == (d.0 + x.0, x.1);
      assert Depths(a + b, h) == (d.0 + (x.0 + y.0), y.1);
      assert d.0 + (x.0 + y.0) == d.0 + x.0 + y.0;
    }
  }

  // ----- pieces, one after the other -----

  /** From the depths d0 recorded so far and the depth h0, emitting the items gives d1 and h1. */
  ghost predicate Traced(d0: seq<int>, h0: int, items: seq<Item>, d1: seq<int>, h1: int) {
    d1 == d0 + Depths(items, h0).0 && h1 == Depths(items, h0).1
  }

  lemma TracedNone(d: seq<int>, h: int)
    ensures Traced(d, h, [], d, h)
  {
  }

  lemma TracedOne(d: seq<int>, h: int, it: Item)
    requires !it.Loop? && !it.Short?
    ensures Traced(d, h, [it], d + [h], h + StackDelta(FlatItem(it)[0]))
  {
    assert [it][1..] == [];
  }

  lemma TracedJoin(d0: seq<int>, h0: int, a: seq<Item>, d1: seq<int>, h1: int, b: seq<Item>, d2: seq<int>, h2: int)
    requires Traced(d0, h0, a, d1, h1) && Traced(d1, h1, b, d2, h2)
    ensures Traced(d0, h0, a + b, d2, h2)
  {
    DepthsAppend(a, b, h0);
    hide Depths;
    assert d0 + Depths(a, h0).0 + Depths(b, h1).0 == d0 + (Depths(a, h0).0 + Depths(b, h1).0);
  }

  lemma TracedShort(d: seq<int>, h: int, it: Item, e: seq<int>, k: int)
    requires it.Short? && Traced(d + [h], h - 1, it.rhs, e, k)
    ensures Traced(d, h, [it], e + [k] + [h - 1] + [h - 1] + [h], h)
  {
    assert [it][1..] == [];
    var b := Depths(it.rhs, h - 1).0;
    assert d + [h] + b + [k] + [h - 1] + [h - 1] + [h] == d + ([h] + b + [k, h - 1, h - 1, h]);
  }

  lemma TracedLoop(d: seq<int>, h: int, it: Item, e: seq<int>, k: int)
    requires it.Loop? && Traced(d + [h], h, it.body, e, k)
    ensures Traced(d, h, [it], e + [k], k)
  {
    assert [it][1..] == [];
    var b := Depths(it.body, h).0;
    assert d + [h] + b + [k] == d + ([h] + b + [k]);
  }

  // ----- the static depth is consistent -----

  /** On code of the right shape the depth after an item is its height. */
  lemma {:induction false} DepthIsHeight(items: seq<Item>, h: nat)
    requires Height(items, h) >= 0
    ensures Depths(items, h).1 == Height(items, h)
    decreases items, 1
  {
    if items != [] {
      var k := ItemHeight(items[0], h);
      HeightFits(items[0], h);
      ItemIsHeight(items[0], h);
      DepthIsHeight(items[1..], k);
    }
  }

  lemma HeightFits(it: Item, h: nat)
    ensures ItemHeight(it, h) >= -1
  {
  }

  lemma {:induction false} ItemIsHeight(it: Item, h: nat)
    requires ItemHeight(it, h) >= 0
    ensures DepthItem(it, h).1 == ItemHeight(it, h)
    decreases it, 0
  {
    if it.Loop? {
      DepthIsHeight(it.body, 0);
    }
  }

  /** The depth that the instruction after position i must have. */
  predicate Falls(code: seq<Inst>, d: seq<int>, last: int, i: nat)
    requires |d| == |code| && i < |code|
  {
    !code[i].Jmp? && !code[i].Return? ==>
      (if i + 1 < |code| then d[i + 1] else last) == d[i] + StackDelta(code[i])
  }

  ghost predicate AllFall(code: seq<Inst>, d: (seq<int>, int))
    requires |d.0| == |code|
  {
    forall i :: 0 <= i < |code| ==> Falls(code, d.0, d.1, i)
  }

  ghost predicate StartsAt(d: (seq<int>, int), h: int) {
    if d.0 == [] then d.1 == h else d.0[0] == h
  }

  lemma {:induction false} Starts(items: seq<Item>, h: int)
    ensures StartsAt(Depths(items, h), h)
    decreases items
  {
    if items != [] {
      StartsItem(items[0], h);
      assert FlatItem(items[0]) != [] by { NotNothing(items[0]); }
    }
  }

  lemma StartsItem(it: Item, h: int)
    ensures DepthItem(it, h).0 != [] && DepthItem(it, h).0[0] == h
  {
  }

  lemma NotNothing(it: Item)
    ensures FlatItem(it) != []
  {
  }

  /** Two consistent pieces, the second entered at the depth that the first ends with. */
  lemma FallAppend(a: seq<Inst>, x: (seq<int>, int), b: seq<Inst>, y: (seq<int>, int))
    requires |x.0| == |a| && |y.0| == |b| && AllFall(a, x) && AllFall(b, y) && StartsAt(y, x.1)
    ensures AllFall(a + b, (x.0 + y.0, y.1))
  {
    var c, d := a + b, x.0 + y.0;
    forall i | 0 <= i < |c|
      ensures Falls(c, d, y.1, i)
    {
      if i < |a| {
        assert Falls(a, x.0, x.1, i);
        assert c[i] == a[i] && d[i] == x.0[i];
        if i + 1 < |a| {
          assert d[i + 1] == x.0[i + 1];
        } else if b != [] {
          assert d[i + 1] == y.0[0];
        }
      } else {
        assert Falls(b, y.0, y.1, i - |a|);
        assert c[i] == b[i - |a|] && d[i] == y.0[i - |a|];
        if i + 1 < |c| {
          assert d[i + 1] == y.0[i + 1 - |a|];
        }
      }
    }
  }

  lemma FallOne(i: Inst, h: int, k: int)
    requires i.Jmp? || i.Return? || k == h + StackDelta(i)
    ensures AllFall([i], ([h], k)) && StartsAt(([h], k), h)
  {
  }

  /** Control that falls through finds the depth it leaves. */
  lemma {:induction false} LevelFalls(items: seq<Item>, h: nat)
    requires Height(items, h) >= 0
    ensures AllFall(Flatten(items), Depths(items, h))
    decreases items, 1
  {
    if items != [] {
      var k := ItemHeight(items[0], h);
      HeightFits(items[0], h);
      ItemIsHeight(items[0], h);
      ItemFalls(items[0], h);
      LevelFalls(items[1..], k);
      Starts(items[1..], k);
      FallAppend(FlatItem(items[0]), DepthItem(items[0], h), Flatten(items[1..]), Depths(items[1..], k));
    }
  }

  lemma {:induction false} ItemFalls(it: Item, h: nat)
    requires ItemHeight(it, h) >= 0
    ensures AllFall(FlatItem(it), DepthItem(it, h))
    decreases it, 0
  {
    match it
    case Plain(op) => FallOne(op, h, h + StackDelta(op));
    case Lab(l) => FallOne(Label(l), h, h);
    case Goto(l) => FallOne(Jmp(l), h, h);
    case GotoIf(l) => FallOne(JmpIf(l), h, h - 1);
    case GotoIfNot(l) => FallOne(JmpIfNot(l), h, h - 1);
    case Loop(hd, b, body) =>
      LevelFalls(body, 0);
      DepthIsHeight(body, 0);
      Starts(body, 0);
      LoopFalls(it);
    case Short(_, _, _, _, rhs) =>
      LevelFalls(rhs, h - 1);
      DepthIsHeight(rhs, h - 1);
      Starts(rhs, h - 1);
      ShortFalls(it, h);
  }

  lemma LoopFalls(it: Item)
    requires it.Loop? && AllFall(Flatten(it.body), Depths(it.body, 0)) && Depths(it.body, 0).1 == 0
    requires StartsAt(Depths(it.body, 0), 0)
    ensures AllFall(FlatItem(it), DepthItem(it, 0))
  {
    hide AllFall;
    var f, d := Flatten(it.body), Depths(it.body, 0);
    FallOne(Label(it.head), 0, 0);
    FallOne(Label(it.brk), 0, 0);
    FallAppend([Label(it.head)], ([0], 0), f, d);
    FallAppend([Label(it.head)] + f, ([0] + d.0, 0), [Label(it.brk)], ([0], 0));
  }

  lemma ShortFalls(it: Item, h: nat)
    requires it.Short? && h >= 1 && AllFall(Flatten(it.rhs), Depths(it.rhs, h - 1)) && Depths(it.rhs, h - 1).1 == h
    requires StartsAt(Depths(it.rhs, h - 1), h - 1)
    ensures AllFall(FlatItem(it), DepthItem(it, h))
  {
    hide AllFall;
    var f, d := Flatten(it.rhs), Depths(it.rhs, h - 1);
    var j := if it.onTrue then JmpIf(it.tgt) else JmpIfNot(it.tgt);
    var tail, e := [Jmp(it.end), Label(it.tgt), ConstBool(it.k), Label(it.end)], [h, h - 1, h - 1, h];
    FallOne(j, h, h - 1);
    FallAppend([j], ([h], h - 1), f, d);
    assert AllFall(tail, (e, h)) by { TailFalls(it, h); }
    FallAppend([j] + f, ([h] + d.0, h), tail, (e, h));
  }

  lemma TailFalls(it: Item, h: nat)
    requires it.Short?
    ensures AllFall([Jmp(it.end), Label(it.tgt), ConstBool(it.k), Label(it.end)], ([h, h - 1, h - 1, h], h))
  {
  }

  // ----- jumps -----

  /** A label and a depth it is entered with or stands at. */
  type Mark = (int, int)

  function LabelMarks(code: seq<Inst>, d: seq<int>): set<Mark>
    requires |d| == |code|
  {
    if code == [] then {}
    else (if code[0].Label? then {(code[0].l, d[0])} else {}) + LabelMarks(code[1..], d[1..])
  }

  function JumpMarks(code: seq<Inst>, d: seq<int>): set<Mark>
    requires |d| == |code|
  {
    if code == [] then {}
    else (if IsJump(code[0]) then {(code[0].l, d[0] + StackDelta(code[0]))} else {}) + JumpMarks(code[1..], d[1..])
  }

  lemma {:induction false} MarksAppend(a: seq<Inst>, x: seq<int>, b: seq<Inst>, y: seq<int>)
    requires |x| == |a| && |y| == |b|
    ensures LabelMarks(a + b, x + y) == LabelMarks(a, x) + LabelMarks(b, y)
    ensures JumpMarks(a + b, x + y) == JumpMarks(a, x) + JumpMarks(b, y)
  {
    if a == [] {
      assert a + b == b && x + y == y;
    } else {
      assert (a + b)[0] == a[0] && (a + b)[1..] == a[1..] + b && (x + y)[0] == x[0] && (x + y)[1..] == x[1..] + y;
      MarksAppend(a[1..], x[1..], b, y);
    }
  }

  lemma {:induction false} JumpMarked(code: seq<Inst>, d: seq<int>, i: nat)
    requires |d| == |code| && i < |code| && IsJump(code[i])
    ensures (code[i].l, d[i] + StackDelta(code[i])) in JumpMarks(code, d)
  {
    if i > 0 {
      JumpMarked(code[1..], d[1..], i - 1);
    }
  }

  lemma {:induction false} MarkedLabel(code: seq<Inst>, d: seq<int>, k: Mark) returns (i: nat)
    requires |d| == |code| && k in LabelMarks(code, d)
    ensures i < |code| && code[i] == Label(k.0) && d[i] == k.1
  {
    if code[0].Label? && k == (code[0].l, d[0]) {
      i := 0;
    } else {
      i := MarkedLabel(code[1..], d[1..], k);
      i := i + 1;
    }
  }

  function LoopMarks(loop: LoopOf): set<Mark> {
    if loop.Some? then {(loop.value.0, 0), (loop.value.1, 0)} else {}
  }

  /** Labels directly in a level stand at depth 0. */
  lemma {:induction false} TopMarks(items: seq<Item>, h: nat)
    requires Height(items, h) >= 0
    ensures forall l :: l in TopLabs(items) ==> (l, 0) in LabelMarks(Flatten(items), Depths(items, h).0)
    decreases items
  {
    if items != [] {
      var k := ItemHeight(items[0], h);
      HeightFits(items[0], h);
      ItemIsHeight(items[0], h);
      TopMarks(items[1..], k);
      MarksAppend(FlatItem(items[0]), DepthItem(items[0], h).0, Flatten(items[1..]), Depths(items[1..], k).0);
      if items[0].Lab? {
        LabelMark([Label(items[0].l)], [0]);
      }
    }
  }

  lemma LabelMark(code: seq<Inst>, d: seq<int>)
    requires |code| == 1 && |d| == 1
    ensures LabelMarks(code, d) == if code[0].Label? then {(code[0].l, d[0])} else {}
    ensures JumpMarks(code, d) == if IsJump(code[0]) then {(code[0].l, d[0] + StackDelta(code[0]))} else {}
  {
    assert code[1..] == [] && d[1..] == [];
  }

  ghost predicate MarksMet(code: seq<Inst>, d: seq<int>, more: set<Mark>)
    requires |d| == |code|
  {
    JumpMarks(code, d) <= LabelMarks(code, d) + more
  }

  /** Every jump of a level leaves with the depth its label stands at. */
  lemma {:induction false} JumpsMeet(items: seq<Item>, h: nat, loop: LoopOf)
    requires LevelOK(items, loop) && Height(items, h) >= 0
    ensures MarksMet(Flatten(items), Depths(items, h).0, LoopMarks(loop))
    decreases items, 1
  {
    if items != [] {
      var it, rest := items[0], items[1..];
      var k := ItemHeight(it, h);
      HeightFits(it, h);
      ItemIsHeight(it, h);
      TopMarks(rest, k);
      DepthsFront(items, h);
      ItemMeets(it, rest, h, loop, LabelMarks(Flatten(rest), Depths(rest, k).0));
      JumpsMeet(rest, k, loop);
      hide LabelMarks, JumpMarks, Depths, Flatten, FlatItem, DepthItem;
      MarksAppend(FlatItem(it), DepthItem(it, h).0, Flatten(rest), Depths(rest, k).0);
    }
  }

  lemma {:induction false} ItemMeets(it: Item, rest: seq<Item>, h: nat, loop: LoopOf, later: set<Mark>)
    requires ItemOK(it, rest, loop) && ItemHeight(it, h) >= 0
    requires forall l :: l in TopLabs(rest) ==> (l, 0) in later
    ensures MarksMet(FlatItem(it), DepthItem(it, h).0, later + LoopMarks(loop))
    decreases it, 0
  {
    hide MarksMet, Depths, FlatItem, DepthItem, Flatten, LoopMarks;
    match it
    case Loop(hd, b, body) =>
      JumpsMeet(body, 0, Some((hd, b)));
      DepthIsHeight(body, 0);
      LoopMeets(it);
      MetMore(FlatItem(it), DepthItem(it, 0).0, later + LoopMarks(loop));
    case Short(_, _, _, _, rhs) =>
      RhsMeets(rhs, h - 1);
      DepthIsHeight(rhs, h - 1);
      ShortMeets(it, h);
      MetMore(FlatItem(it), DepthItem(it, h).0, later + LoopMarks(loop));
    case _ => JumpMeets(it, rest, h, loop, later);
  }

  lemma MetMore(code: seq<Inst>, d: seq<int>, more: set<Mark>)
    requires |d| == |code| && MarksMet(code, d, {})
    ensures MarksMet(code, d, more)
  {
  }

  lemma JumpMeets(it: Item, rest: seq<Item>, h: nat, loop: LoopOf, later: set<Mark>)
    requires ItemOK(it, rest, loop) && ItemHeight(it, h) >= 0 && !it.Loop? && !it.Short?
    requires forall l :: l in TopLabs(rest) ==> (l, 0) in later
    ensures MarksMet(FlatItem(it), DepthItem(it, h).0, later + LoopMarks(loop))
  {
    hide LabelMarks, JumpMarks;
    LabelMark(FlatItem(it), DepthItem(it, h).0);
  }

  lemma LoopMeets(it: Item)
    requires it.Loop? && MarksMet(Flatten(it.body), Depths(it.body, 0).0, LoopMarks(Some((it.head, it.brk)))) &&
             Depths(it.body, 0).1 == 0
    ensures MarksMet(FlatItem(it), DepthItem(it, 0).0, {})
  {
    var f, d := Flatten(it.body), Depths(it.body, 0).0;
    LabelMark([Label(it.head)], [0]);
    LabelMark([Label(it.brk)], [0]);
    MarksAppend([Label(it.head)], [0], f, d);
    MarksAppend([Label(it.head)] + f, [0] + d, [Label(it.brk)], [0]);
  }

  lemma ShortMeets(it: Item, h: nat)
    requires it.Short? && h >= 1 && MarksMet(Flatten(it.rhs), Depths(it.rhs, h - 1).0, {}) &&
             Depths(it.rhs, h - 1).1 == h
    ensures MarksMet(FlatItem(it), DepthItem(it, h).0, {})
  {
    var f, d := Flatten(it.rhs), Depths(it.rhs, h - 1).0;
    var j := if it.onTrue then JmpIf(it.tgt) else JmpIfNot(it.tgt);
    var tail, e := [Jmp(it.end), Label(it.tgt), ConstBool(it.k), Label(it.end)], [h, h - 1, h - 1, h];
    assert FlatItem(it) == [j] + f + tail;
    assert DepthItem(it, h).0 == [h] + d + e;
    hide FlatItem, DepthItem, LabelMarks, JumpMarks, Flatten, Depths;
    TailMarks(it, h);
    LabelMark([j], [h]);
    var a, b := JumpMarks(f, d), LabelMarks(f, d);
    assert JumpMarks([j], [h]) == {(it.tgt, h - 1)} && LabelMarks([j], [h]) == {};
    ShortPieces(j, f, d, tail, e, h);
    assert JumpMarks(FlatItem(it), DepthItem(it, h).0) == {(it.tgt, h - 1)} + a + {(it.end, h)};
  }

  /** The jump over the right operand goes to a label of the tail. */
  lemma ShortPieces(j: Inst, f: seq<Inst>, d: seq<int>, tail: seq<Inst>, e: seq<int>, h: nat)
    requires |f| == |d| && |tail| == |e|
    ensures LabelMarks([j] + f, [h] + d) == LabelMarks([j], [h]) + LabelMarks(f, d)
    ensures JumpMarks([j] + f, [h] + d) == JumpMarks([j], [h]) + JumpMarks(f, d)
    ensures LabelMarks([j] + f + tail, [h] + d + e) == LabelMarks([j] + f, [h] + d) + LabelMarks(tail, e)
    ensures JumpMarks([j] + f + tail, [h] + d + e) == JumpMarks([j] + f, [h] + d) + JumpMarks(tail, e)
  {
    MarksAppend([j], [h], f, d);
    MarksAppend([j] + f, [h] + d, tail, e);
  }

  lemma TailMarks(it: Item, h: nat)
    requires it.Short?
    ensures var tail, e := [Jmp(it.end), Label(it.tgt), ConstBool(it.k), Label(it.end)], [h, h - 1, h - 1, h];
      LabelMarks(tail, e) == {(it.tgt, h - 1), (it.end, h)} && JumpMarks(tail, e) == {(it.end, h)}
  {
    var a, b, c, d := Jmp(it.end), Label(it.tgt), ConstBool(it.k), Label(it.end);
    LabelMark([d], [h]);
    LabelMark([c], [h - 1]);
    LabelMark([b], [h - 1]);
    LabelMark([a], [h]);
    assert [c, d] == [c] + [d] && [h - 1, h] == [h - 1] + [h];
    MarksAppend([c], [h - 1], [d], [h]);
    assert [b, c, d] == [b] + [c, d] && [h - 1, h - 1, h] == [h - 1] + [h - 1, h];
    MarksAppend([b], [h - 1], [c, d], [h - 1, h]);
    assert [a, b, c, d] == [a] + [b, c, d] && [h, h - 1, h - 1, h] == [h] + [h - 1, h - 1, h];
    MarksAppend([a], [h], [b, c, d], [h - 1, h - 1, h]);
  }

  lemma {:induction false} RhsMeets(items: seq<Item>, h: nat)
    requires RhsOK(items) && Height(items, h) >= 0
    ensures MarksMet(Flatten(items), Depths(items, h).0, {})
    decreases items, 1
  {
    if items != [] {
      var it, rest := items[0], items[1..];
      var k := ItemHeight(it, h);
      HeightFits(it, h);
      ItemIsHeight(it, h);
      RhsMeets(rest, k);
      RhsItemMeets(it, h);
      DepthsFront(items, h);
      hide LabelMarks, JumpMarks, Depths, Flatten, FlatItem, DepthItem;
      MarksAppend(FlatItem(it), DepthItem(it, h).0, Flatten(rest), Depths(rest, k).0);
    }
  }

  lemma {:induction false} RhsItemMeets(it: Item, h: nat)
    requires RhsItemOK(it) && ItemHeight(it, h) >= 0
    ensures MarksMet(FlatItem(it), DepthItem(it, h).0, {})
    decreases it, 0
  {
    hide MarksMet, Depths, FlatItem, DepthItem, Flatten;
    if it.Short? {
      RhsMeets(it.rhs, h - 1);
      DepthIsHeight(it.rhs, h - 1);
      ShortMeets(it, h);
    } else {
      PlainMeets(it, h);
    }
  }

  lemma PlainMeets(it: Item, h: nat)
    requires it.Plain? && !IsControl(it.op)
    ensures MarksMet(FlatItem(it), DepthItem(it, h).0, {})
  {
    hide LabelMarks, JumpMarks;
    LabelMark(FlatItem(it), DepthItem(it, h).0);
  }

  // ----- runs -----

  /** The height the operand stack has where control stands. */
  ghost predicate AtDepth(items: seq<Item>, c: Conf) {
    c.Running? ==>
      && c.pc <= |Flatten(items)|
      && |c.s.stack| == if c.pc < |Flatten(items)| then Depths(items, 0).0[c.pc] else Depths(items, 0).1
  }

  /** A body whose jumps stay in their level and whose labels are distinct. */
  ghost predicate Shaped(items: seq<Item>) {
    LevelOK(items, None) && DistinctLabels(Flatten(items)) && Height(items, 0) >= 0
  }

  lemma JumpDepth(items: seq<Item>, i: nat)
    requires Shaped(items) && i < |Flatten(items)| && IsJump(Flatten(items)[i])
    ensures var code, d := Flatten(items), Depths(items, 0).0;
      var p := LabelPos(code, code[i].l);
      p < |code| && d[p] == d[i] + StackDelta(code[i])
  {
    var code, d := Flatten(items), Depths(items, 0).0;
    JumpsMeet(items, 0, None);
    JumpMarked(code, d, i);
    var p := MarkedLabel(code, d, (code[i].l, d[i] + StackDelta(code[i])));
    LabelPosFound(code, p);
  }

  lemma StepDepth(m: Machine, items: seq<Item>, c: Conf)
    requires Shaped(items) && AtDepth(items, c)
    ensures AtDepth(items, Step(m, Flatten(items), c))
  {
    hide Flatten, Depths, LabelPos, Apply, Height, LevelOK;
    var code := Flatten(items);
    if c.Running? && c.pc < |code| {
      var d := Depths(items, 0);
      LevelFalls(items, 0);
      assert Falls(code, d.0, d.1, c.pc);
      if IsJump(code[c.pc]) {
        JumpDepth(items, c.pc);
      }
      if CanRun(code[c.pc], c.s) {
        DeltaIsDynamic(m, code[c.pc], c.s);
      }
    }
  }

  /** The static depth moves like the machine's operand stack. */
  lemma DeltaIsDynamic(m: Machine, i: Inst, s: State)
    requires CanRun(i, s)
    ensures |Apply(m, i, s).stack| == |s.stack| + StackDelta(i)
  {
  }

  /** On every machine, at every moment of every run, the operand stack is as high as the
      static depth of the instruction that comes next. */
  lemma {:induction false} RunDepth(m: Machine, items: seq<Item>, c: Conf, n: nat)
    requires Shaped(items) && AtDepth(items, c)
    ensures AtDepth(items, Run(m, Flatten(items), c, n))
    decreases n
  {
    hide AtDepth, Step, Shaped;
    if n > 0 {
      StepDepth(m, items, c);
      RunDepth(m, items, Step(m, Flatten(items), c), n - 1);
    }
  }
}
