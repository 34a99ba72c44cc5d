/** The structured code the WebAssembly backend emits for a shape, and the proof that it
    simulates the labelled code step by step. */
module Structured {
  import opened Ir
  import opened Shape
  import opened Wasm
  import Stackify

  /** The branch depth of the innermost open block for label l, or -1. */
  function Depth(stk: seq<int>, l: int): (d: int)
    ensures -1 <= d < |stk|
    ensures d >= 0 ==> stk[|stk| - 1 - d] == l
    ensures d < 0 <==> l !in stk
  {
    if stk == [] then -1
    else if stk[|stk| - 1] == l then 0
    else
      var d := Depth(stk[..|stk| - 1], l);
      if d < 0 then -1 else d + 1
  }

  predicate Closes(it: Item, T: set<int>) {
    it.Lab? && it.l in T
  }

  /** The labels of the blocks still open for the rest of a level, outermost first. */
  function Open(items: seq<Item>, T: set<int>): (r: seq<int>)
    ensures forall l :: l in r ==> l in TopLabs(items)
    ensures forall l :: l in TopLabs(items) && l in T ==> l in r
  {
    if items == [] then []
    else Open(items[1..], T) + (if Closes(items[0], T) then [items[0].l] else [])
  }

  function Dead(f: Flow): seq<W> {
    if f.dead then [Op(Unreachable)] else []
  }

  /** How the code goes on after the end of a label's block, where rest follows: not at all, or, when
      the next instruction works on the top of the operand stack, with the temporary on it - the
      value that leaving the block took away. */
  function Resume(fi: FuncInfo, f: Flow, rest: seq<Item>): seq<W> {
    if f.dead then [Op(Unreachable)]
    else if Stackify.Reloads(Flatten(rest)) then [Op(LGet(fi.params))]
    else []
  }

  function BranchTo(stk: seq<int>, l: int): nat {
    if Depth(stk, l) < 0 then 0 else Depth(stk, l)
  }

  /** The code of one item; stk lists the labels of the blocks open around it. */
  function EmitItem(fi: FuncInfo, it: Item, f: Flow, stk: seq<int>): seq<W>
    decreases it
  {
    match it
    case Plain(op) => if f.dead then [] else Ops(PlainCode(fi, op))
    case Lab(_) => []
    case Goto(l) => if f.dead then [] else [Op(Br(BranchTo(stk, l)))]
    case GotoIf(l) => if f.dead then [] else [Op(BrIf(BranchTo(stk, l)))]
    case GotoIfNot(l) => if f.dead then [] else [Op(I32Eqz), Op(BrIf(BranchTo(stk, l)))]
    case Loop(h, b, body) =>
      [Block([LoopW(Wrap(fi, [], body, Targets(body), f, stk + [b, h]))])] + Dead(FlowItem(it, {}, f))
    case Short(onTrue, _, _, k, rhs) =>
      if f.dead then []
      else
        var c := [Op(I32Const(k))];
        var r := Wrap(fi, [], rhs, {}, f, stk + [-1]);
        [if onTrue then If(c, r) else If(r, c)]
  }

  /** The code of the rest of a level up to the end of its innermost open block. */
  function Body(fi: FuncInfo, items: seq<Item>, T: set<int>, f: Flow, outer: seq<int>): seq<W>
    decreases items
  {
    if items == [] || Closes(items[0], T) then []
    else
      EmitItem(fi, items[0], f, outer + Open(items, T))
      + Body(fi, items[1..], T, FlowItem(items[0], T, f), outer)
  }

  /** A whole level: acc is the code so far, and each label that is a target wraps all of
      it in a block whose end is the label's position. */
  function Wrap(fi: FuncInfo, acc: seq<W>, items: seq<Item>, T: set<int>, f: Flow, outer: seq<int>): seq<W>
    decreases items
  {
    if items == [] then acc
    else
      var f' := FlowItem(items[0], T, f);
      if Closes(items[0], T) then Wrap(fi, [Block(acc)] + Resume(fi, f', items[1..]), items[1..], T, f', outer)
      else Wrap(fi, acc + EmitItem(fi, items[0], f, outer + Open(items, T)), items[1..], T, f', outer)
  }

  /** What follows the label that starts a rest of a level: the continuation of its block. */
  function After(fi: FuncInfo, rest: seq<Item>, T: set<int>, f: Flow, outer: seq<int>): seq<W> {
    Resume(fi, f, rest) + Body(fi, rest, T, f, outer)
  }

  /** The run-time labels of the blocks open for the rest of a level, outermost first. */
  function Conts(fi: FuncInfo, items: seq<Item>, T: set<int>, f: Flow, outer: seq<int>): (r: seq<OpenBlock>)
    ensures |r| == |Open(items, T)|
    decreases items
  {
    if items == [] then []
    else
      var f' := FlowItem(items[0], T, f);
      var rest := Conts(fi, items[1..], T, f', outer);
      if Closes(items[0], T) then
        var a := After(fi, items[1..], T, f', outer);
        rest + [OpenBlock(a, a, 0)]
      else rest
  }

  /** Running into a level opens exactly its blocks and reaches its first item. */
  lemma {:induction false} EnterLevel(fi: FuncInfo, acc: seq<W>, items: seq<Item>, T: set<int>, f: Flow,
                                      outer: seq<int>, labels: seq<OpenBlock>, s: WState)
    requires s.stack == [] || Open(items, T) == []
    ensures WRun(fi.rc, Code(Wrap(fi, acc, items, T, f, outer), labels, s), |Open(items, T)|)
         == Code(acc + Body(fi, items, T, f, outer), labels + Conts(fi, items, T, f, outer), s)
    decreases items
  {
    if items == [] {
      assert acc + [] == acc;
      assert labels + [] == labels;
    } else {
      var f' := FlowItem(items[0], T, f);
      var rest := items[1..];
      if Closes(items[0], T) {
        EnterLevel(fi, [Block(acc)] + Resume(fi, f', rest), rest, T, f', outer, labels, s);
        ClosingStep(fi, acc, items, T, f, outer, labels, s, rest, f',
                    Code(Wrap(fi, acc, items, T, f, outer), labels, s));
      } else {
        var e := EmitItem(fi, items[0], f, outer + Open(items, T));
        EnterLevel(fi, acc + e, rest, T, f', outer, labels, s);
        Regroup(acc, e, Body(fi, rest, T, f', outer));
      }
    }
  }

  lemma Regroup(a: seq<W>, b: seq<W>, c: seq<W>)
    ensures a + b + c == a + (b + c)
  {
  }

  lemma ClosingStep(fi: FuncInfo, acc: seq<W>, items: seq<Item>, T: set<int>, f: Flow, outer: seq<int>,
                    labels: seq<OpenBlock>, s: WState, rest: seq<Item>, f': Flow, c: WConf)
    requires items != [] && rest == items[1..] && Closes(items[0], T) && s.stack == []
    requires f' == FlowItem(items[0], T, f)
    requires WRun(fi.rc, c, |Open(rest, T)|)
          == Code([Block(acc)] + Resume(fi, f', rest) + Body(fi, rest, T, f', outer),
                  labels + Conts(fi, rest, T, f', outer), s)
    ensures WRun(fi.rc, c, |Open(items, T)|)
         == Code(acc + Body(fi, items, T, f, outer), labels + Conts(fi, items, T, f, outer), s)
  {
    hide WRun, WStep, EmitItem, FlowItem, Resume;
    var a := After(fi, rest, T, f', outer);
    var inner := Conts(fi, rest, T, f', outer);
    Regroup([Block(acc)], Resume(fi, f', rest), Body(fi, rest, T, f', outer));
    ThenOpen(fi.rc, c, |Open(rest, T)|, acc, a, labels + inner, s);
    assert acc + [] == acc;
    assert labels + inner + [OpenBlock(a, a, 0)] == labels + (inner + [OpenBlock(a, a, 0)]);
  }

  lemma ThenOpen(rc: nat, c: WConf, k: nat, body: seq<W>, a: seq<W>, labels: seq<OpenBlock>, s: WState)
    requires WRun(rc, c, k) == Code([Block(body)] + a, labels, s)
    ensures WRun(rc, c, k + 1) == Code(body, labels + [OpenBlock(a, a, |s.stack|)], s)
  {
    WRunAdd(rc, c, k, 1);
    WRunOne(rc, Code([Block(body)] + a, labels, s));
    assert ([Block(body)] + a)[1..] == a;
  }

  /** A right operand is a level without labels, blocks or returns. */
  lemma {:induction false} RhsLevel(items: seq<Item>, T: set<int>, f: Flow, rc: nat)
    requires RhsOK(items)
    ensures LevelOK(items, None) && TopLabs(items) == {} && Open(items, T) == []
    ensures ReturnsOK(items, T, f, rc) && FlowAll(items, T, f) == f
    decreases items
  {
    if items != [] {
      assert RhsItemOK(items[0]);
      RhsLevel(items[1..], T, FlowItem(items[0], T, f), rc);
    }
  }
}
