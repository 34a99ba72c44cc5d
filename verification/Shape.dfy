/** The shapes of IR that the lowering emits, as trees whose leaves are instructions.

    A *level* is a list of items. Loops and short-circuit operators nest; `if`
    statements do not: their labels and jumps lie side by side in one level, just as
    the WebAssembly backend sees them. `Flatten` gives the labelled IR. */
module Shape {
  import opened Ir

  datatype Item =
    | Plain(op: Inst)
    | Lab(l: int)
    | Goto(l: int)
    | GotoIf(l: int)
    | GotoIfNot(l: int)
      /** LABEL head; body; LABEL brk. The body ends with the jump back to head. */
    | Loop(head: int, brk: int, body: seq<Item>)
      /** JMP_IF tgt (for ||) or JMP_IF_NOT tgt (for &&); rhs; JMP end; LABEL tgt; CONST_BOOL k; LABEL end. */
    | Short(onTrue: bool, tgt: int, end: int, k: int, rhs: seq<Item>)

  function FlatItem(it: Item): (s: seq<Inst>)
    decreases it
  {
    match it
    case Plain(op) => [op]
    case Lab(l) => [Label(l)]
    case Goto(l) => [Jmp(l)]
    case GotoIf(l) => [JmpIf(l)]
    case GotoIfNot(l) => [JmpIfNot(l)]
    case Loop(h, b, body) => [Label(h)] + Flatten(body) + [Label(b)]
    case Short(onTrue, t, e, k, rhs) =>
      [if onTrue then JmpIf(t) else JmpIfNot(t)] + Flatten(rhs) + [Jmp(e), Label(t), ConstBool(k), Label(e)]
  }

  function Flatten(items: seq<Item>): (s: seq<Inst>)
    decreases items
  {
    if items == [] then [] else FlatItem(items[0]) + Flatten(items[1..])
  }

  lemma {:induction false} FlattenAppend(a: seq<Item>, b: seq<Item>)
    ensures Flatten(a + b) == Flatten(a) + Flatten(b)
  {
    if a == [] {
      assert a + b == b;
    } else {
      assert (a + b)[1..] == a[1..] + b;
      FlattenAppend(a[1..], b);
    }
  }

  // ----- labels and jumps of a level -----

  /** Labels defined directly in the level, not inside its loops and short circuits. */
  function TopLabs(items: seq<Item>): set<int> {
    if items == [] then {}
    else (if items[0].Lab? then {items[0].l} else {}) + TopLabs(items[1..])
  }

  predicate IsGoto(it: Item) {
    it.Goto? || it.GotoIf? || it.GotoIfNot?
  }

  function TopJumps(items: seq<Item>): set<int> {
    if items == [] then {}
    else (if IsGoto(items[0]) then {items[0].l} else {}) + TopJumps(items[1..])
  }

  /** The labels of a level that some jump of the level targets: each gets a block. */
  function Targets(items: seq<Item>): set<int> {
    TopLabs(items) * TopJumps(items)
  }

  /** The labels defined in a piece of flat code. */
  function CodeLabels(code: seq<Inst>): set<int> {
    if code == [] then {}
    else (if code[0].Label? then {code[0].l} else {}) + CodeLabels(code[1..])
  }

  // ----- well-formed shapes -----

  /** The enclosing loop of a level, if any: its head label and its break label. */
  type LoopOf = Option<(int, int)>

  predicate IsConst(it: Item) {
    it.Plain? && (it.op.ConstI64? || it.op.ConstBool?)
  }

  /** The right operand of && and ||: straight-line code and further short circuits. */
  predicate RhsOK(items: seq<Item>)
    decreases items
  {
    if items == [] then true
    else
      && RhsItemOK(items[0])
      && (IsConst(items[0]) && |items| > 1 ==> !items[1].Lab? && !items[1].Loop?)
      && RhsOK(items[1..])
  }

  predicate RhsItemOK(it: Item)
    decreases it
  {
    match it
    case Plain(op) => !IsControl(op)
    case Short(onTrue, t, e, k, rhs) => t >= 0 && e >= 0 && k == FromBool(onTrue) && RhsOK(rhs)
    case _ => false
  }

  /** Jumps of a level go forward to a label of the same level, out of the enclosing
      loop, or (unconditionally) back to its head. */
  predicate ItemOK(it: Item, rest: seq<Item>, loop: LoopOf)
    decreases it
  {
    match it
    case Plain(op) => !IsControl(op) || op.Return?
    case Lab(l) => l >= 0
    case Goto(l) =>
      l in TopLabs(rest) || (loop.Some? && (l == loop.value.0 || l == loop.value.1))
    case GotoIf(l) => l in TopLabs(rest) || (loop.Some? && l == loop.value.1)
    case GotoIfNot(l) => l in TopLabs(rest) || (loop.Some? && l == loop.value.1)
    case Loop(h, b, body) =>
      && h >= 0 && b >= 0
      && body != [] && body[|body| - 1] == Goto(h)
      && LevelOK(body, Some((h, b)))
    case Short(onTrue, t, e, k, rhs) => t >= 0 && e >= 0 && k == FromBool(onTrue) && RhsOK(rhs)
  }

  predicate LevelOK(items: seq<Item>, loop: LoopOf)
    decreases items
  {
    if items == [] then true
    else
      && ItemOK(items[0], items[1..], loop)
      && (IsConst(items[0]) && |items| > 1 ==> !items[1].Lab? && !items[1].Loop?)
      && LevelOK(items[1..], loop)
  }

  // ----- operand stack heights -----

  /** The height after an item entered at height h, or -1 if the item does not fit:
      labels and jumps need an otherwise empty stack, a return takes exactly what is there. */
  function ItemHeight(it: Item, h: int): int
    decreases it
  {
    if h < 0 then -1
    else match it
      case Plain(op) =>
        if op.Return? then (if h == op.n then 0 else -1)
        else if h < Pops(op) then -1 else h - Pops(op) + Pushes(op)
      case Lab(_) => if h == 0 then 0 else -1
      case Goto(_) => if h == 0 then 0 else -1
      case GotoIf(_) => if h == 1 then 0 else -1
      case GotoIfNot(_) => if h == 1 then 0 else -1
      case Loop(_, _, body) => if h == 0 && Height(body, 0) == 0 then 0 else -1
      case Short(_, _, _, _, rhs) => if h >= 1 && Height(rhs, h - 1) == h then h else -1
  }

  function Height(items: seq<Item>, h: int): (r: int)
    ensures h == -1 ==> r == -1
    decreases items
  {
    if items == [] then h else Height(items[1..], ItemHeight(items[0], h))
  }

  /** No instruction names a local outside the frame of n slots. */
  predicate OperandsOK(items: seq<Item>, n: nat)
    decreases items
  {
    items == [] || (OperandsItemOK(items[0], n) && OperandsOK(items[1..], n))
  }

  predicate OperandsItemOK(it: Item, n: nat)
    decreases it
  {
    match it
    case Plain(op) => op.LocalGet? || op.LocalSet? ==> 0 <= op.idx < n
    case Loop(_, _, body) => OperandsOK(body, n)
    case Short(_, _, _, _, rhs) => OperandsOK(rhs, n)
    case _ => true
  }

  /** The last instruction is a return. */
  predicate EndsInReturn(code: seq<Inst>) {
    code != [] && code[|code| - 1].Return?
  }

  /** The integer constants of the code are words below lim. */
  ghost predicate ConstsBelow(code: seq<Inst>, lim: int) {
    forall i :: 0 <= i < |code| && code[i].ConstI64? ==> 0 <= code[i].val < lim
  }

  // ----- reachability along the text -----

  /** What the WebAssembly backend tracks while it emits: whether the current position
      is dead, and the labels some live branch already targets. */
  datatype Flow = Flow(dead: bool, marked: set<int>)

  function FlowItem(it: Item, T: set<int>, f: Flow): (r: Flow)
    ensures f.marked <= r.marked
    decreases it
  {
    match it
    case Plain(op) => if op.Return? then Flow(true, f.marked) else f
    case Lab(l) => if l in T then Flow(f.dead && l !in f.marked, f.marked) else f
    case Goto(l) => if f.dead then f else Flow(true, f.marked + {l})
    case GotoIf(l) => if f.dead then f else Flow(false, f.marked + {l})
    case GotoIfNot(l) => if f.dead then f else Flow(false, f.marked + {l})
    case Loop(h, b, body) =>
      var fb := FlowAll(body, Targets(body), f);
      Flow(fb.dead && b !in fb.marked, fb.marked)
    case Short(_, _, _, _, _) => f
  }

  function FlowAll(items: seq<Item>, T: set<int>, f: Flow): (r: Flow)
    ensures f.marked <= r.marked
    decreases items
  {
    if items == [] then f else FlowAll(items[1..], T, FlowItem(items[0], T, f))
  }

  /** Every return that can be reached returns rc values. */
  predicate ReturnsOK(items: seq<Item>, T: set<int>, f: Flow, rc: nat)
    decreases items
  {
    items == [] ||
    (ReturnsItemOK(items[0], f, rc) && ReturnsOK(items[1..], T, FlowItem(items[0], T, f), rc))
  }

  predicate ReturnsItemOK(it: Item, f: Flow, rc: nat)
    decreases it
  {
    match it
    case Plain(op) => op.Return? && !f.dead ==> op.n == rc
    case Loop(_, _, body) => ReturnsOK(body, Targets(body), f, rc)
    case _ => true
  }
}
