/** The operand stack along a level, labels included that are reached with one value on it: the tag
    of a `switch`, which every test duplicates and every label finds again.

    A block of WebAssembly hands no value on. At such a label the emitted code takes the value from
    the temporary, where the last DUP left it; `kept` says that it is still there. */
module Tags {
  import opened Ir
  import opened Shape
  import Searches
  import Stackify
  import Structured

  /** The height of the operand stack, whether the temporary holds its bottom value, and whether
      the position follows a jump or a return, so that nothing reaches it. */
  datatype Tally = Tally(h: int, kept: bool, gone: bool)

  const EMPTY := Tally(0, false, false)
  const GONE := Tally(0, false, true)
  const BAD := Tally(-1, false, false)

  /** DUP saves the bottom value when it is the only one; what writes the temporary for its own
      purposes, or reaches down to the bottom value, loses it. */
  predicate Keeps(op: Inst, t: Tally) {
    if op.Dup? then t.h == 1
    else !op.LocalSet? && !op.Neg? && t.kept && t.h > Pops(op)
  }

  /** After an item, where rest follows; BAD if it does not fit. The labels V are reached with the
      tag on the stack, by jumps only; a jump to one needs the tag alone on the stack and in the
      temporary, and what follows the label must work on the top of the stack. */
  function TallyItem(it: Item, rest: seq<Item>, t: Tally, T: set<int>, V: set<int>): (r: Tally)
    ensures t.h < 0 ==> r == BAD
    decreases it
  {
    if t.h < 0 then BAD
    else if t.gone && !it.Lab? && !it.Loop? then t
    else match it
      case Plain(op) =>
        if op.Return? then (if t.h == op.n then GONE else BAD)
        else if t.h < Pops(op) then BAD
        else Tally(t.h - Pops(op) + Pushes(op), Keeps(op, t), false)
      case Lab(l) =>
        if l in V then (if t.gone && l in T && Stackify.Reloads(Flatten(rest)) then Tally(1, true, false) else BAD)
        else if l !in T then t
        else if t.h == 0 then EMPTY else BAD
      case Goto(l) =>
        if l in V then (if t.h == 1 && t.kept then GONE else BAD)
        else if t.h == 0 then GONE else BAD
      case GotoIf(l) => TallyIf(l, t, V)
      case GotoIfNot(l) => TallyIf(l, t, V)
      case Loop(head, brk, body) =>
        if t.h == 0 && head !in V && brk !in V && TallyAll(body, EMPTY, Targets(body), V).h == 0 then EMPTY else BAD
      case Short(_, _, _, _, rhs) =>
        if t.h < 1 then BAD
        else
          var k := t.kept && t.h >= 2;
          var r := TallyAll(rhs, Tally(t.h - 1, k, false), {}, V);
          if r.h == t.h then Tally(t.h, k && r.kept, false) else BAD
  }

  function TallyIf(l: int, t: Tally, V: set<int>): Tally {
    if l in V then (if t.h == 2 && t.kept then Tally(1, true, false) else BAD)
    else if t.h == 1 then EMPTY else BAD
  }

  function TallyAll(items: seq<Item>, t: Tally, T: set<int>, V: set<int>): (r: Tally)
    ensures t.h < 0 ==> r.h < 0
    decreases items
  {
    if items == [] then t else TallyAll(items[1..], TallyItem(items[0], items[1..], t, T, V), T, V)
  }

  lemma {:induction false} TallyNegative(items: seq<Item>, t: Tally, T: set<int>, V: set<int>)
    requires TallyAll(items, t, T, V).h >= 0
    ensures t.h >= 0
    decreases items
  {
    if items != [] {
      TallyNegative(items[1..], TallyItem(items[0], items[1..], t, T, V), T, V);
    }
  }

  // ----- code without tags -----

  /** The height is h, unless nothing gets here. */
  predicate AtHeight(t: Tally, h: int) {
    if t.gone then t == GONE else t.h == h
  }

  /** The labels V are neither defined in the code nor jumped to. */
  ghost predicate Untagged(items: seq<Item>, V: set<int>, loop: LoopOf) {
    && LevelOK(items, loop) && CodeLabels(Flatten(items)) !! V
    && (loop.Some? ==> loop.value.0 !in V && loop.value.1 !in V)
  }

  /** For code in which no label is reached with a tag it is the height alone that counts. */
  lemma {:induction false} PlainTally(items: seq<Item>, r: seq<Item>, h: int, t: Tally, T: set<int>, V: set<int>,
                                      loop: LoopOf) returns (t': Tally)
    requires Untagged(items, V, loop) && h >= 0 && Height(items, h) >= 0 && AtHeight(t, h)
    ensures TallyAll(items + r, t, T, V) == TallyAll(r, t', T, V)
    ensures AtHeight(t', Height(items, h)) && (RhsOK(items) ==> t'.gone == t.gone)
    decreases items, 2
  {
    if items == [] {
      assert items + r == r;
      t' := t;
    } else {
      var it, rest := items[0], items[1..];
      HeightGoesOn(rest, ItemHeight(it, h));
      UntaggedParts(items, V, loop);
      var t1 := ItemTally(it, rest, rest + r, h, t, T, V, loop);
      assert (items + r)[0] == it && (items + r)[1..] == rest + r;
      t' := PlainTally(rest, r, ItemHeight(it, h), t1, T, V, loop);
    }
  }

  lemma UntaggedParts(items: seq<Item>, V: set<int>, loop: LoopOf)
    requires items != [] && Untagged(items, V, loop)
    ensures Untagged(items[1..], V, loop) && CodeLabels(FlatItem(items[0])) !! V && TopLabs(items[1..]) !! V
  {
    Searches.LabelsAppend(FlatItem(items[0]), Flatten(items[1..]));
    Searches.TopInCode(items[1..]);
  }

  lemma {:induction false} HeightGoesOn(items: seq<Item>, h: int)
    requires Height(items, h) >= 0
    ensures h >= 0
    decreases items
  {
    if items != [] {
      HeightGoesOn(items[1..], ItemHeight(items[0], h));
    }
  }

  lemma {:induction false} ItemTally(it: Item, rest: seq<Item>, after: seq<Item>, h: int, t: Tally, T: set<int>, V: set<int>,
                                     loop: LoopOf) returns (t': Tally)
    requires ItemOK(it, rest, loop) && CodeLabels(FlatItem(it)) !! V && TopLabs(rest) !! V
    requires loop.Some? ==> loop.value.0 !in V && loop.value.1 !in V
    requires h >= 0 && ItemHeight(it, h) >= 0 && AtHeight(t, h)
    ensures t' == TallyItem(it, after, t, T, V) && AtHeight(t', ItemHeight(it, h))
    ensures RhsItemOK(it) ==> t'.gone == t.gone
    decreases it, 1
  {
    hide CodeLabels, Flatten, TallyAll, TopLabs;
    t' := TallyItem(it, after, t, T, V);
    if it.Lab? {
      Searches.HasCodeLabel(FlatItem(it), 0);
    } else if it.Loop? {
      BodyTally(it, t, V);
    } else if it.Short? && !t.gone {
      OperandTally(it, h, t, V);
    }
  }

  lemma {:induction false} BodyTally(it: Item, t: Tally, V: set<int>)
    requires it.Loop? && CodeLabels(FlatItem(it)) !! V && LevelOK(it.body, Some((it.head, it.brk))) && Height(it.body, 0) == 0
    ensures it.head !in V && it.brk !in V && TallyAll(it.body, EMPTY, Targets(it.body), V).h == 0
    decreases it, 0
  {
    hide Flatten, TallyAll, LevelOK, Height, CodeLabels;
    var h, f, b := [Label(it.head)], Flatten(it.body), [Label(it.brk)];
    Searches.LabelsAppend(h + f, b);
    Searches.LabelsAppend(h, f);
    Searches.HasCodeLabel(h, 0);
    Searches.HasCodeLabel(b, 0);
    var t1 := PlainTally(it.body, [], 0, EMPTY, Targets(it.body), V, Some((it.head, it.brk)));
    NoTally(it.body, t1, Targets(it.body), V);
  }

  lemma NoTally(items: seq<Item>, t: Tally, T: set<int>, V: set<int>)
    ensures items + [] == items && TallyAll([], t, T, V) == t
  {
  }

  lemma {:induction false} OperandTally(it: Item, h: int, t: Tally, V: set<int>)
    requires it.Short? && CodeLabels(FlatItem(it)) !! V && RhsOK(it.rhs)
    requires h >= 1 && Height(it.rhs, h - 1) == h && t.h == h && !t.gone
    ensures TallyAll(it.rhs, Tally(t.h - 1, t.kept && t.h >= 2, false), {}, V).h == t.h
    decreases it, 0
  {
    hide Flatten, TallyAll, RhsOK, Height, CodeLabels;
    Searches.ShortLabelsIn(it);
    Structured.RhsLevel(it.rhs, {}, Flow(false, {}), 0);
    var t1 := PlainTally(it.rhs, [], h - 1, Tally(t.h - 1, t.kept && t.h >= 2, false), {}, V, None);
    NoTally(it.rhs, t1, {}, V);
  }

  // ----- where nothing is reloaded -----

  /** With an empty stack nothing that is reached next works on its top. */
  lemma {:induction false} CalmAtZero(items: seq<Item>, t: Tally, T: set<int>, V: set<int>, loop: LoopOf, tail: seq<Inst>)
    requires t.h == 0 && !t.gone && TallyAll(items, t, T, V).h >= 0 && LevelOK(items, loop)
    requires tail == [] || (items != [] && items[|items| - 1].Goto?)
    ensures !Stackify.Reloads(Flatten(items) + tail)
    decreases items
  {
    if items == [] {
      assert Flatten(items) + tail == [];
    } else {
      var it, rest := items[0], Flatten(items[1..]) + tail;
      var t' := TallyItem(it, items[1..], t, T, V);
      TallyNegative(items[1..], t', T, V);
      assert ItemOK(it, items[1..], loop);
      assert Flatten(items) + tail == FlatItem(it) + rest;
      if it.Lab? {
        ReloadsLabel(it.l, rest);
        CalmAtZero(items[1..], t', T, V, loop, tail);
      } else if it.Loop? {
        LoopCalm(it, rest, t, V);
      } else {
        FirstInst(it, rest);
      }
    }
  }

  lemma {:induction false} LoopCalm(it: Item, rest: seq<Inst>, t: Tally, V: set<int>)
    requires it.Loop? && TallyAll(it.body, EMPTY, Targets(it.body), V).h >= 0
    requires it.body != [] && it.body[|it.body| - 1].Goto? && LevelOK(it.body, Some((it.head, it.brk)))
    ensures !Stackify.Reloads(FlatItem(it) + rest)
    decreases it, 0
  {
    hide Flatten, LevelOK, TallyAll, Targets, Stackify.Reloads;
    var t1 := [Label(it.brk)] + rest;
    LoopText(it, rest);
    ReloadsLabel(it.head, Flatten(it.body) + t1);
    CalmAtZero(it.body, EMPTY, Targets(it.body), V, Some((it.head, it.brk)), t1);
  }

  lemma LoopText(it: Item, rest: seq<Inst>)
    requires it.Loop?
    ensures FlatItem(it) + rest == [Label(it.head)] + (Flatten(it.body) + ([Label(it.brk)] + rest))
  {
    hide Flatten;
  }

  lemma ReloadsLabel(l: int, tail: seq<Inst>)
    ensures Stackify.Reloads([Label(l)] + tail) == Stackify.Reloads(tail)
  {
    assert ([Label(l)] + tail)[1..] == tail;
  }

  lemma FirstInst(it: Item, rest: seq<Inst>)
    requires !it.Lab? && !it.Loop? && (it.Plain? ==> !it.op.Dup? && !it.op.Drop? && !it.op.Label?)
    ensures !Stackify.Reloads(FlatItem(it) + rest)
  {
    var s := FlatItem(it) + rest;
    assert s[0] == FlatItem(it)[0];
  }
}
