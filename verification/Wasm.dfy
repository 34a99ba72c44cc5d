/** The part of WebAssembly the backend emits: structured control with numeric branch
    depths (WebAssembly Core Specification, section 4.4), 32-bit integers, and a shadow
    stack in linear memory that holds the frame of the running function. */
module Wasm {
  import opened Ir

  datatype IBin = IAdd | ISub | IMul | IEq | INe | ILtS | IGtS | ILeS | IGeS

  datatype WOp =
    | I32Const(v: int)
    | LGet(i: nat)
    | LSet(i: nat)
    | LTee(i: nat)
    | GetSP
    | SetSP
    | I32Load(off: int)
    | I32Store(off: int)
    | I32Bin(bin: IBin)
    | I32Eqz
    | WDrop
    | Ret
    | Unreachable
    | Br(d: nat)
    | BrIf(d: nat)

  /** Structured code. `If` leaves one i32, `Block` and `Loop` leave nothing. */
  datatype W =
    | Op(o: WOp)
    | Block(body: seq<W>)
    | LoopW(body: seq<W>)
    | If(thn: seq<W>, els: seq<W>)

  /** The same code as the writer emits it: a linear stream with opening and closing marks. */
  datatype Tok = TOp(o: WOp) | TBlock | TLoop | TIf | TElse | TEnd

  function Toks(w: W): seq<Tok>
    decreases w
  {
    match w
    case Op(o) => [TOp(o)]
    case Block(b) => [TBlock] + ToksAll(b) + [TEnd]
    case LoopW(b) => [TLoop] + ToksAll(b) + [TEnd]
    case If(t, e) => [TIf] + ToksAll(t) + [TElse] + ToksAll(e) + [TEnd]
  }

  function ToksAll(ws: seq<W>): seq<Tok>
    decreases ws
  {
    if ws == [] then [] else Toks(ws[0]) + ToksAll(ws[1..])
  }

  function Ops(os: seq<WOp>): (r: seq<W>)
    ensures |r| == |os|
  {
    seq(|os|, i requires 0 <= i < |os| => Op(os[i]))
  }

  // ----- the machine -----

  datatype WState = WState(stack: seq<int>, locals: map<int, int>, mem: map<int, int>, sp: int)

  /** An open block: where a branch to it continues, what follows it when its body ends,
      and the operand stack height at its entry. */
  datatype OpenBlock = OpenBlock(target: seq<W>, after: seq<W>, height: nat)

  /** A call: under way, or finished with its results, the shadow-stack pointer and the memory. */
  datatype WConf =
    | Code(cur: seq<W>, labels: seq<OpenBlock>, s: WState)
    | Finished(result: seq<int>, sp: int, mem: map<int, int>)
    | Trapped

  function Read(m: map<int, int>, a: int): int {
    if a in m then m[a] else 0
  }

  function I32(x: int): int {
    x % TWO32
  }

  function I32S(x: int): int {
    var y := x % TWO32;
    if y >= TWO32 / 2 then y - TWO32 else y
  }

  function I32Val(b: IBin, c: int, a: int): int {
    match b
    case IAdd => I32(c + a)
    case ISub => I32(c - a)
    case IMul => I32(c * a)
    case IEq => FromBool(I32S(c) == I32S(a))
    case INe => FromBool(I32S(c) != I32S(a))
    case ILtS => FromBool(I32S(c) < I32S(a))
    case IGtS => FromBool(I32S(c) > I32S(a))
    case ILeS => FromBool(I32S(c) <= I32S(a))
    case IGeS => FromBool(I32S(c) >= I32S(a))
  }

  /** A data instruction, or None where validation would reject it. */
  function Data(o: WOp, s: WState): Option<WState> {
    var n := |s.stack|;
    match o
    case I32Const(v) => Some(s.(stack := s.stack + [I32(v)]))
    case LGet(i) => Some(s.(stack := s.stack + [Read(s.locals, i)]))
    case GetSP => Some(s.(stack := s.stack + [s.sp]))
    case LSet(i) => if n < 1 then None else
      Some(s.(stack := s.stack[..n - 1], locals := s.locals[i := s.stack[n - 1]]))
    case LTee(i) => if n < 1 then None else Some(s.(locals := s.locals[i := s.stack[n - 1]]))
    case SetSP => if n < 1 then None else Some(s.(stack := s.stack[..n - 1], sp := s.stack[n - 1]))
    case I32Load(off) => if n < 1 then None else
      Some(s.(stack := s.stack[..n - 1] + [Read(s.mem, s.stack[n - 1] + off)]))
    case I32Store(off) => if n < 2 then None else
      Some(s.(stack := s.stack[..n - 2], mem := s.mem[s.stack[n - 2] + off := I32(s.stack[n - 1])]))
    case I32Bin(b) => if n < 2 then None else
      Some(s.(stack := s.stack[..n - 2] + [I32Val(b, s.stack[n - 2], s.stack[n - 1])]))
    case I32Eqz => if n < 1 then None else
      Some(s.(stack := s.stack[..n - 1] + [FromBool(s.stack[n - 1] == 0)]))
    case WDrop => if n < 1 then None else Some(s.(stack := s.stack[..n - 1]))
    case _ => None
  }

  /** A branch: unwind the labels and the operand stack to those of the target.
      (The only blocks that are branched to leave no result.) */
  function Branch(d: nat, labels: seq<OpenBlock>, s: WState): WConf {
    if d >= |labels| then Trapped
    else
      var k := |labels| - 1 - d;
      if |s.stack| < labels[k].height then Trapped
      else Code(labels[k].target, labels[..k], s.(stack := s.stack[..labels[k].height]))
  }

  /** One step of a function that returns rc values. */
  function WStep(rc: nat, c: WConf): WConf {
    if !c.Code? then c
    else if c.cur == [] then
      if c.labels == [] then Finished(c.s.stack, c.s.sp, c.s.mem)
      else Code(c.labels[|c.labels| - 1].after, c.labels[..|c.labels| - 1], c.s)
    else
      var rest := c.cur[1..];
      var n := |c.s.stack|;
      match c.cur[0]
      case Block(b) => Code(b, c.labels + [OpenBlock(rest, rest, n)], c.s)
      case LoopW(b) => Code(b, c.labels + [OpenBlock([LoopW(b)] + rest, rest, n)], c.s)
      case If(t, e) =>
        if n < 1 then Trapped
        else Code(if c.s.stack[n - 1] != 0 then t else e, c.labels + [OpenBlock(rest, rest, n - 1)],
                  c.s.(stack := c.s.stack[..n - 1]))
      case Op(o) =>
        match o
        case Br(d) => Branch(d, c.labels, c.s)
        case BrIf(d) =>
          if n < 1 then Trapped
          else
            var s := c.s.(stack := c.s.stack[..n - 1]);
            if c.s.stack[n - 1] != 0 then Branch(d, c.labels, s) else Code(rest, c.labels, s)
        case Ret => if n < rc then Trapped else Finished(c.s.stack[n - rc..], c.s.sp, c.s.mem)
        case Unreachable => Trapped
        case _ =>
          match Data(o, c.s)
          case Some(s) => Code(rest, c.labels, s)
          case None => Trapped
  }

  function WRun(rc: nat, c: WConf, n: nat): WConf
    decreases n
  {
    if n == 0 then c else WRun(rc, WStep(rc, c), n - 1)
  }

  lemma {:induction false} WRunAdd(rc: nat, c: WConf, a: nat, b: nat)
    ensures WRun(rc, c, a + b) == WRun(rc, WRun(rc, c, a), b)
    decreases a
  {
    if a > 0 {
      WRunAdd(rc, WStep(rc, c), a - 1, b);
    }
  }

  lemma {:induction false} WRunHalted(rc: nat, c: WConf, n: nat)
    requires !c.Code?
    ensures WRun(rc, c, n) == c
    decreases n
  {
    if n > 0 {
      WRunHalted(rc, c, n - 1);
    }
  }

  /** A straight line of data instructions. */
  function DataAll(os: seq<WOp>, s: WState): Option<WState>
    decreases |os|
  {
    if os == [] then Some(s)
    else match Data(os[0], s)
      case None => None
      case Some(t) => DataAll(os[1..], t)
  }

  lemma {:induction false} WRunData(rc: nat, os: seq<WOp>, rest: seq<W>, labels: seq<OpenBlock>, s: WState)
    requires DataAll(os, s).Some?
    ensures WRun(rc, Code(Ops(os) + rest, labels, s), |os|) == Code(rest, labels, DataAll(os, s).value)
    decreases |os|
  {
    if os == [] {
      assert Ops(os) + rest == rest;
    } else {
      var cur := Ops(os) + rest;
      assert cur[0] == Op(os[0]);
      assert cur[1..] == Ops(os[1..]) + rest;
      WRunData(rc, os[1..], rest, labels, Data(os[0], s).value);
    }
  }

  lemma {:induction false} DataAllAppend(a: seq<WOp>, b: seq<WOp>, s: WState)
    requires DataAll(a, s).Some?
    ensures DataAll(a + b, s) == DataAll(b, DataAll(a, s).value)
    decreases |a|
  {
    if a == [] {
      assert a + b == b;
    } else {
      assert (a + b)[0] == a[0] && (a + b)[1..] == a[1..] + b;
      DataAllAppend(a[1..], b, Data(a[0], s).value);
    }
  }

  // ----- code for instructions that stay inside one statement -----

  /** The current function: parameters, frame slots (one 4-byte word each), results. */
  datatype FuncInfo = FuncInfo(params: nat, slots: nat, rc: nat)

  const SCRATCH: int := 0x400

  /** So many results have scratch addresses of 32 bits. */
  const MAX_RESULTS: int := (TWO32 - SCRATCH) / 4

  function IBinOf(op: BinOp): IBin {
    match op
    case Add => IAdd case Sub => ISub case Mul => IMul
    case Eq => IEq case Neq => INe
    case Lt => ILtS case Gt => IGtS case Leq => ILeS case Geq => IGeS
  }

  /** Move the n topmost values to the scratch area, the deepest first. */
  function SaveResults(fi: FuncInfo, n: nat): seq<WOp> {
    if n == 0 then []
    else [I32Const(SCRATCH + 4 * (n - 1)), LSet(fi.params), LSet(fi.params + 1),
          LGet(fi.params), LGet(fi.params + 1), I32Store(0)] + SaveResults(fi, n - 1)
  }

  function LoadResults(n: nat): seq<WOp> {
    if n == 0 then []
    else LoadResults(n - 1) + [I32Const(SCRATCH + 4 * (n - 1)), I32Load(0)]
  }

  function PopFrame(fi: FuncInfo): seq<WOp> {
    [GetSP, I32Const(4 * fi.slots), I32Bin(IAdd), SetSP]
  }

  function ReturnCode(fi: FuncInfo): seq<WOp> {
    (if fi.slots > 0 then SaveResults(fi, fi.rc) + PopFrame(fi) + LoadResults(fi.rc) else []) + [Ret]
  }

  /** Copy the first n parameters from wasm locals to the frame. */
  function CopyParams(n: nat): seq<WOp> {
    if n == 0 then [] else CopyParams(n - 1) + [GetSP, LGet(n - 1), I32Store(4 * (n - 1))]
  }

  function Prologue(fi: FuncInfo): seq<WOp> {
    (if fi.slots > 0 then [GetSP, I32Const(4 * fi.slots), I32Bin(ISub), SetSP] else []) + CopyParams(fi.params)
  }

  /** The code for one instruction that is not a label or a jump. */
  function PlainCode(fi: FuncInfo, i: Inst): seq<WOp> {
    match i
    case ConstI64(v) => [I32Const(v)]
    case ConstBool(arg) => [I32Const(if arg != 0 then 1 else 0)]
    case LocalGet(idx) => [GetSP, I32Load(4 * idx)]
    case LocalSet(idx) => [LSet(fi.params), GetSP, LGet(fi.params), I32Store(4 * idx)]
    case Drop => [WDrop]
    case Dup => [LTee(fi.params), LGet(fi.params)]
    case Bin(op) => [I32Bin(IBinOf(op))]
    case Neg => [LSet(fi.params), I32Const(0), LGet(fi.params), I32Bin(ISub)]
    case Not => [I32Eqz]
    case Return(_) => ReturnCode(fi)
    case _ => []
  }

  predicate Words(xs: seq<int>) {
    forall i :: 0 <= i < |xs| ==> 0 <= xs[i] < TWO32
  }

  /** The frame of the VM run lies in the shadow stack, and both operand stacks agree; the rest
      of the memory, and where the frame is, are as at the body's entry o. */
  ghost predicate SameState(fi: FuncInfo, o: WState, v: State, w: WState) {
    && w.stack == v.stack
    && |v.locals| == fi.slots
    && Words(v.stack) && Words(v.locals)
    && (forall i {:trigger v.locals[i]} :: 0 <= i < fi.slots ==> Read(w.mem, w.sp + 4 * i) == v.locals[i])
    && w.sp == o.sp && KeptBut(o.mem, w.mem, o.sp, o.sp + 4 * fi.slots)
  }

  /** The memory t is the memory m, except perhaps at the addresses lo to hi. */
  ghost predicate KeptBut(m: map<int, int>, t: map<int, int>, lo: int, hi: int) {
    forall a {:trigger Read(t, a)} :: !(lo <= a < hi) ==> Read(t, a) == Read(m, a)
  }

  lemma KeptStore(m: map<int, int>, t: map<int, int>, lo: int, hi: int, a: int, x: int)
    requires KeptBut(m, t, lo, hi) && lo <= a < hi
    ensures KeptBut(m, t[a := x], lo, hi)
  {
    var u := t[a := x];
    forall b | !(lo <= b < hi)
      ensures Read(u, b) == Read(m, b)
    {
      assert Read(u, b) == Read(t, b);
    }
  }

  /** Giving back a frame moves the shadow-stack pointer up by its size. */
  function Popped(fi: FuncInfo, sp: int): int {
    if fi.slots > 0 then I32(sp + 4 * fi.slots) else sp
  }

  predicate InFrame(fi: FuncInfo, sp: int, a: int) {
    sp <= a < sp + 4 * fi.slots
  }

  predicate InScratch(fi: FuncInfo, a: int) {
    SCRATCH <= a < SCRATCH + 4 * fi.rc
  }

  /** The body entered at o has finished in order: its frame is given back, and outside the
      frame and the scratch words the memory is as it was. */
  ghost predicate Left(fi: FuncInfo, o: WState, e: WConf) {
    && e.Finished? && e.sp == Popped(fi, o.sp)
    && forall a {:trigger Read(e.mem, a)} :: !InFrame(fi, o.sp, a) && !InScratch(fi, a) ==> Read(e.mem, a) == Read(o.mem, a)
  }

  lemma IBinSame(op: BinOp, c: int, a: int)
    ensures I32Val(IBinOf(op), c, a) == BinVal(Vm32, op, c, a)
  {
  }

  /** Save the top of the stack in a temporary, push y, reload: y ends up below. */
  lemma TuckUnder(tmp: nat, o: WOp, z: WOp, y: int, w: WState) returns (t: WState)
    requires |w.stack| >= 1
    requires (o == GetSP && y == w.sp) || (o == I32Const(0) && y == 0)
    ensures t == w.(stack := w.stack[..|w.stack| - 1] + [y, w.stack[|w.stack| - 1]],
                    locals := w.locals[tmp := w.stack[|w.stack| - 1]])
    ensures DataAll([LSet(tmp), o, LGet(tmp), z], w) == DataAll([z], t)
  {
    var n := |w.stack|;
    var code := [LSet(tmp), o, LGet(tmp), z];
    var w1 := w.(stack := w.stack[..n - 1], locals := w.locals[tmp := w.stack[n - 1]]);
    var w2 := w1.(stack := w1.stack + [y]);
    t := w.(stack := w.stack[..n - 1] + [y, w.stack[n - 1]], locals := w1.locals);
    assert w2.stack + [w.stack[n - 1]] == t.stack;
    assert DataAll(code, w) == DataAll(code[1..], w1) == DataAll(code[2..], w2) == DataAll(code[3..], t);
    assert code[3..] == [z];
  }

  lemma DataOne(o: WOp, s: WState)
    ensures DataAll([o], s) == Data(o, s)
  {
    assert [o][1..] == [];
  }

  lemma LocalSetSim(fi: FuncInfo, o: WState, idx: int, v: State, w: WState)
    requires SameState(fi, o, v, w) && CanRun(LocalSet(idx), v)
    ensures DataAll(PlainCode(fi, LocalSet(idx)), w).Some?
    ensures SameState(fi, o, Apply(Vm32, LocalSet(idx), v), DataAll(PlainCode(fi, LocalSet(idx)), w).value)
  {
    var n := |v.stack|;
    var z := I32Store(4 * idx);
    var t := TuckUnder(fi.params, GetSP, z, w.sp, w);
    DataOne(z, t);
    KeptStore(o.mem, w.mem, o.sp, o.sp + 4 * fi.slots, w.sp + 4 * idx, I32(w.stack[n - 1]));
    assert t.stack[..n - 1] == w.stack[..n - 1];
  }

  lemma NegSim(fi: FuncInfo, o: WState, v: State, w: WState)
    requires SameState(fi, o, v, w) && CanRun(Neg, v)
    ensures DataAll(PlainCode(fi, Neg), w).Some?
    ensures SameState(fi, o, Apply(Vm32, Neg, v), DataAll(PlainCode(fi, Neg), w).value)
  {
    hide SameState, DataAll, Words;
    SameStacks(fi, o, v, w);
    var n := |v.stack|;
    var t := TuckUnder(fi.params, I32Const(0), I32Bin(ISub), 0, w);
    DataOne(I32Bin(ISub), t);
    assert t.stack[..n - 1] == w.stack[..n - 1];
    var st := w.stack[..n - 1] + [I32(0 - w.stack[n - 1])];
    var u := t.(stack := st);
    WordOnTop(w.stack, I32(0 - w.stack[n - 1]));
    SameBut(fi, o, v, w, st, u);
  }

  lemma WordOnTop(xs: seq<int>, x: int)
    requires Words(xs) && xs != [] && 0 <= x < TWO32
    ensures Words(xs[..|xs| - 1] + [x])
  {
  }

  /** The wasm locals do not matter to the frame. */
  lemma SameBut(fi: FuncInfo, o: WState, v: State, w: WState, st: seq<int>, u: WState)
    requires SameState(fi, o, v, w) && Words(st) && u.stack == st && u.mem == w.mem && u.sp == w.sp
    ensures SameState(fi, o, v.(stack := st), u)
  {
  }

  lemma LocalGetSim(fi: FuncInfo, o: WState, idx: int, v: State, w: WState)
    requires SameState(fi, o, v, w) && CanRun(LocalGet(idx), v)
    ensures DataAll(PlainCode(fi, LocalGet(idx)), w).Some?
    ensures SameState(fi, o, Apply(Vm32, LocalGet(idx), v), DataAll(PlainCode(fi, LocalGet(idx)), w).value)
  {
    var w1 := w.(stack := w.stack + [w.sp]);
    var code := PlainCode(fi, LocalGet(idx));
    assert code[1..] == [I32Load(4 * idx)];
    DataOne(code[1], w1);
    assert w1.stack[..|w.stack|] == w.stack;
    assert Read(w.mem, w.sp + 4 * idx) == v.locals[idx];
  }

  /** Each data instruction of the IR and its WebAssembly code have the same effect. */
  lemma PlainSim(fi: FuncInfo, o: WState, i: Inst, v: State, w: WState)
    requires SameState(fi, o, v, w)
    requires CanRun(i, v) && (i.ConstI64? ==> 0 <= i.val < TWO32)
    ensures DataAll(PlainCode(fi, i), w).Some?
    ensures SameState(fi, o, Apply(Vm32, i, v), DataAll(PlainCode(fi, i), w).value)
  {
    if i.LocalGet? {
      LocalGetSim(fi, o, i.idx, v, w);
    } else if i.LocalSet? {
      LocalSetSim(fi, o, i.idx, v, w);
    } else if i.Neg? {
      NegSim(fi, o, v, w);
    } else if i.Dup? {
      var code := PlainCode(fi, i);
      assert code[1..] == [LGet(fi.params)];
      DataOne(code[1], w.(locals := w.locals[fi.params := w.stack[|w.stack| - 1]]));
    } else {
      OneOpSim(fi, o, i, v, w);
    }
  }

  /** The temporary holds the bottom value of the operand stack. */
  ghost predicate TempHolds(fi: FuncInfo, v: State, w: WState) {
    v.stack != [] && Read(w.locals, fi.params) == v.stack[0]
  }

  /** DUP of the only value leaves it in the temporary; apart from DUP, NEG and stores the
      temporary is left alone. */
  lemma PlainTemp(fi: FuncInfo, o: WState, i: Inst, v: State, w: WState)
    requires SameState(fi, o, v, w)
    requires CanRun(i, v) && (i.ConstI64? ==> 0 <= i.val < TWO32)
    requires if i.Dup? then |v.stack| == 1 else TempHolds(fi, v, w) && |v.stack| > Pops(i) && !i.LocalSet? && !i.Neg?
    ensures DataAll(PlainCode(fi, i), w).Some?
    ensures TempHolds(fi, Apply(Vm32, i, v), DataAll(PlainCode(fi, i), w).value)
  {
    hide I32Val, BinVal, SameState;
    assert v.stack == w.stack by { SameStacks(fi, o, v, w); }
    var code := PlainCode(fi, i);
    if i.LocalGet? {
      assert code[1..] == [I32Load(4 * i.idx)];
      DataOne(code[1], w.(stack := w.stack + [w.sp]));
    } else if i.Dup? {
      assert code[1..] == [LGet(fi.params)];
      DataOne(code[1], w.(locals := w.locals[fi.params := w.stack[0]]));
    } else {
      DataOne(code[0], w);
    }
  }

  lemma OneOpSim(fi: FuncInfo, o: WState, i: Inst, v: State, w: WState)
    requires SameState(fi, o, v, w)
    requires CanRun(i, v) && (i.ConstI64? ==> 0 <= i.val < TWO32)
    requires i.ConstI64? || i.ConstBool? || i.Drop? || i.Bin? || i.Not?
    ensures DataAll(PlainCode(fi, i), w).Some?
    ensures SameState(fi, o, Apply(Vm32, i, v), DataAll(PlainCode(fi, i), w).value)
  {
    hide DataAll, SameState;
    DataOne(PlainCode(fi, i)[0], w);
    assert v.stack == w.stack && Words(v.stack) by { SameStacks(fi, o, v, w); }
    var d := Data(PlainCode(fi, i)[0], w);
    var t := Apply(Vm32, i, v);
    OneOpStack(fi, i, v, w);
    StackSame(fi, o, v, w, t.stack);
    assert d.value == w.(stack := t.stack) && t == v.(stack := t.stack);
  }

  /** The instruction changes the two operand stacks alike. */
  lemma OneOpStack(fi: FuncInfo, i: Inst, v: State, w: WState)
    requires v.stack == w.stack && Words(v.stack) && CanRun(i, v) && (i.ConstI64? ==> 0 <= i.val < TWO32)
    requires i.ConstI64? || i.ConstBool? || i.Drop? || i.Bin? || i.Not?
    ensures var d, t := Data(PlainCode(fi, i)[0], w), Apply(Vm32, i, v).stack;
      d == Some(w.(stack := t)) && Words(t)
  {
    if i.Bin? {
      hide BinVal, I32Val;
      IBinSame(i.op, w.stack[|w.stack| - 2], w.stack[|w.stack| - 1]);
      BinWord(i.op, w.stack[|w.stack| - 2], w.stack[|w.stack| - 1]);
    } else if i.ConstI64? {
      ModOnce(i.val);
    }
  }

  lemma BinWord(op: BinOp, c: int, a: int)
    ensures 0 <= BinVal(Vm32, op, c, a) < TWO32
  {
  }

  lemma SameStacks(fi: FuncInfo, o: WState, v: State, w: WState)
    requires SameState(fi, o, v, w)
    ensures v.stack == w.stack && Words(v.stack)
  {
  }

  /** Nothing else depends on the operand stacks. */
  lemma StackSame(fi: FuncInfo, o: WState, v: State, w: WState, st: seq<int>)
    requires SameState(fi, o, v, w) && Words(st)
    ensures SameState(fi, o, v.(stack := st), w.(stack := st))
  {
  }

  /** The top value goes to address a. */
  lemma SaveOne(fi: FuncInfo, a: int, z: WOp, w: WState) returns (t: WState)
    requires |w.stack| >= 1 && Words(w.stack) && 0 <= a < TWO32 && z == I32Store(0)
    ensures t.stack == w.stack[..|w.stack| - 1] && t.sp == w.sp
    ensures t.mem == w.mem[a := w.stack[|w.stack| - 1]]
    ensures DataAll([I32Const(a), LSet(fi.params), LSet(fi.params + 1), LGet(fi.params), LGet(fi.params + 1), z], w)
         == Some(t)
  {
    hide Data, DataAll, Words;
    var x := w.stack[|w.stack| - 1];
    var p, q := [I32Const(a), LSet(fi.params), LSet(fi.params + 1)], [LGet(fi.params), LGet(fi.params + 1), z];
    var u := Spill(fi, a, w);
    t := Refill(fi, a, x, u);
    DataAllAppend(p, q, w);
    assert p + q == [I32Const(a), LSet(fi.params), LSet(fi.params + 1), LGet(fi.params), LGet(fi.params + 1), z];
    assert 0 <= x < TWO32 by { WordsLast(w.stack); }
    ModOnce(x);
  }

  lemma WordsLast(xs: seq<int>)
    requires Words(xs) && xs != []
    ensures 0 <= xs[|xs| - 1] < TWO32
  {
  }

  /** The address and the value go to the two temporaries. */
  lemma Spill(fi: FuncInfo, a: int, w: WState) returns (u: WState)
    requires |w.stack| >= 1 && 0 <= a < TWO32
    ensures DataAll([I32Const(a), LSet(fi.params), LSet(fi.params + 1)], w) == Some(u)
    ensures u.stack == w.stack[..|w.stack| - 1] && u.sp == w.sp && u.mem == w.mem
    ensures Read(u.locals, fi.params) == a && Read(u.locals, fi.params + 1) == w.stack[|w.stack| - 1]
  {
    var n := |w.stack|;
    var w1 := w.(stack := w.stack + [a]);
    var w2 := w.(locals := w.locals[fi.params := a]);
    u := w2.(stack := w.stack[..n - 1], locals := w2.locals[fi.params + 1 := w.stack[n - 1]]);
    assert w1.stack[..n] == w.stack;
    ConstData(a, w);
    DataThree(I32Const(a), LSet(fi.params), LSet(fi.params + 1), w, w1, w2);
  }

  /** And back in the order a store wants them. */
  lemma Refill(fi: FuncInfo, a: int, x: int, u: WState) returns (t: WState)
    requires Read(u.locals, fi.params) == a && Read(u.locals, fi.params + 1) == x
    ensures DataAll([LGet(fi.params), LGet(fi.params + 1), I32Store(0)], u) == Some(t)
    ensures t.stack == u.stack && t.sp == u.sp && t.mem == u.mem[a := I32(x)]
  {
    var w1, w2 := u.(stack := u.stack + [a]), u.(stack := u.stack + [a] + [x]);
    DataThree(LGet(fi.params), LGet(fi.params + 1), I32Store(0), u, w1, w2);
    assert w2.stack[..|w2.stack| - 2] == u.stack;
    t := u.(mem := u.mem[a := I32(x)]);
  }

  lemma DataThree(o1: WOp, o2: WOp, o3: WOp, w: WState, w1: WState, w2: WState)
    requires Data(o1, w) == Some(w1) && Data(o2, w1) == Some(w2)
    ensures DataAll([o1, o2, o3], w) == Data(o3, w2)
  {
    hide Data;
    assert [o1, o2, o3][1..] == [o2, o3];
    DataTwo(o2, o3, w1, w2);
  }

  /** Saving moves the values on top of base to the scratch area and touches nothing else. */
  lemma {:induction false} SaveSim(fi: FuncInfo, base: seq<int>, vals: seq<int>, w: WState) returns (t: WState)
    requires w.stack == base + vals && Words(w.stack) && |vals| <= MAX_RESULTS
    ensures DataAll(SaveResults(fi, |vals|), w) == Some(t)
    ensures t.stack == base && t.sp == w.sp
    ensures forall i {:trigger vals[i]} :: 0 <= i < |vals| ==> Read(t.mem, SCRATCH + 4 * i) == vals[i]
    ensures KeptBut(w.mem, t.mem, SCRATCH, SCRATCH + 4 * |vals|)
  {
    var n := |vals|;
    if n == 0 {
      t := w;
      assert base + vals == base;
    } else {
      var a := SCRATCH + 4 * (n - 1);
      var one := [I32Const(a), LSet(fi.params), LSet(fi.params + 1), LGet(fi.params), LGet(fi.params + 1), I32Store(0)];
      var u := SaveOne(fi, a, I32Store(0), w);
      assert u.stack == base + vals[..n - 1];
      t := SaveSim(fi, base, vals[..n - 1], u);
      assert DataAll(SaveResults(fi, n), w) == Some(t) by {
        DataAllAppend(one, SaveResults(fi, n - 1), w);
      }
      SavedAll(vals, u.mem, t.mem, w.mem);
    }
  }

  lemma SavedAll(vals: seq<int>, um: map<int, int>, tm: map<int, int>, wm: map<int, int>)
    requires vals != []
    requires um == wm[SCRATCH + 4 * (|vals| - 1) := vals[|vals| - 1]]
    requires forall i {:trigger vals[..|vals| - 1][i]} :: 0 <= i < |vals| - 1 ==>
               Read(tm, SCRATCH + 4 * i) == vals[..|vals| - 1][i]
    requires KeptBut(um, tm, SCRATCH, SCRATCH + 4 * (|vals| - 1))
    ensures forall i {:trigger vals[i]} :: 0 <= i < |vals| ==> Read(tm, SCRATCH + 4 * i) == vals[i]
    ensures KeptBut(wm, tm, SCRATCH, SCRATCH + 4 * |vals|)
  {
    forall i | 0 <= i < |vals|
      ensures Read(tm, SCRATCH + 4 * i) == vals[i]
    {
      if i < |vals| - 1 {
        assert vals[..|vals| - 1][i] == vals[i];
      }
    }
  }

  lemma {:induction false} LoadSim(n: nat, vals: seq<int>, w: WState)
    requires n <= MAX_RESULTS && |vals| == n
    requires forall i {:trigger vals[i]} :: 0 <= i < n ==> Read(w.mem, SCRATCH + 4 * i) == vals[i]
    ensures DataAll(LoadResults(n), w) == Some(w.(stack := w.stack + vals))
  {
    if n == 0 {
      assert w.stack + vals == w.stack;
    } else {
      LoadSim(n - 1, vals[..n - 1], w);
      var a := SCRATCH + 4 * (n - 1);
      var w1 := w.(stack := w.stack + vals[..n - 1]);
      assert vals[n - 1] == Read(w.mem, a);
      LoadOne(a, vals[n - 1], w1);
      DataAllAppend(LoadResults(n - 1), [I32Const(a), I32Load(0)], w);
      assert w.stack + vals[..n - 1] + [vals[n - 1]] == w.stack + vals;
    }
  }

  lemma LoadOne(a: int, v: int, w: WState)
    requires 0 <= a < TWO32 && Read(w.mem, a) == v
    ensures DataAll([I32Const(a), I32Load(0)], w) == Some(w.(stack := w.stack + [v]))
  {
    var w1 := w.(stack := w.stack + [a]);
    ConstData(a, w);
    LoadData(a, v, w);
    DataTwo(I32Const(a), I32Load(0), w, w1);
  }

  lemma ConstData(a: int, w: WState)
    requires 0 <= a < TWO32
    ensures Data(I32Const(a), w) == Some(w.(stack := w.stack + [a]))
  {
  }

  lemma LoadData(a: int, v: int, w: WState)
    requires Read(w.mem, a) == v
    ensures Data(I32Load(0), w.(stack := w.stack + [a])) == Some(w.(stack := w.stack + [v]))
  {
    assert (w.stack + [a])[..|w.stack|] == w.stack;
  }

  lemma DataTwo(o1: WOp, o2: WOp, w: WState, w1: WState)
    requires Data(o1, w) == Some(w1)
    ensures DataAll([o1, o2], w) == Data(o2, w1)
  {
    assert [o1, o2][1..] == [o2];
    DataOne(o2, w1);
  }

  lemma PopFrameSim(fi: FuncInfo, w: WState) returns (t: WState)
    ensures DataAll(PopFrame(fi), w) == Some(t)
    ensures t.stack == w.stack && t.mem == w.mem && t.sp == I32(w.sp + 4 * fi.slots)
  {
    var code := PopFrame(fi);
    var w1 := w.(stack := w.stack + [w.sp]);
    var w2 := w1.(stack := w1.stack + [I32(4 * fi.slots)]);
    var w3 := w1.(stack := w.stack + [I32Val(IAdd, w.sp, I32(4 * fi.slots))]);
    assert w2.stack[..|w.stack|] == w.stack;
    assert DataAll(code, w) == DataAll(code[1..], w1) == DataAll(code[2..], w2) == DataAll(code[3..], w3);
    assert code[3..] == [SetSP];
    DataOne(SetSP, w3);
    t := Data(SetSP, w3).value;
    assert w3.stack[..|w.stack|] == w.stack;
    AddOnce(w.sp, 4 * fi.slots);
  }

  lemma AddOnce(x: int, y: int)
    ensures I32(x + I32(y)) == I32(x + y)
  {
    var q := y / TWO32;
    assert y == TWO32 * q + y % TWO32;
    assert (x + y) % TWO32 == (x + y % TWO32 + TWO32 * q) % TWO32;
  }

  /** Everything a return does before it leaves: the results end up on the stack again, the
      frame is given back, and only scratch words are written. */
  lemma ReturnBody(fi: FuncInfo, w: WState) returns (t: WState)
    requires |w.stack| == fi.rc <= MAX_RESULTS && Words(w.stack)
    ensures t.stack == w.stack && t.sp == I32(w.sp + 4 * fi.slots)
    ensures KeptBut(w.mem, t.mem, SCRATCH, SCRATCH + 4 * fi.rc)
    ensures DataAll(SaveResults(fi, fi.rc) + PopFrame(fi) + LoadResults(fi.rc), w) == Some(t)
  {
    assert w.stack == [] + w.stack;
    var s := SaveSim(fi, [], w.stack, w);
    var p := PopFrameSim(fi, s);
    LoadSim(fi.rc, w.stack, p);
    t := p.(stack := p.stack + w.stack);
    assert t.stack == w.stack;
    DataAllAppend(SaveResults(fi, fi.rc), PopFrame(fi), w);
    DataAllAppend(SaveResults(fi, fi.rc) + PopFrame(fi), LoadResults(fi.rc), w);
  }

  /** A return finishes with the whole operand stack, whatever blocks are open; it gives the
      frame back and writes only the scratch words of the results. */
  lemma ReturnSim(fi: FuncInfo, rest: seq<W>, labels: seq<OpenBlock>, w: WState)
    requires |w.stack| == fi.rc <= MAX_RESULTS && Words(w.stack)
    ensures var e := WRun(fi.rc, Code(Ops(ReturnCode(fi)) + rest, labels, w), |ReturnCode(fi)|);
      && e.Finished? && e.result == w.stack && e.sp == Popped(fi, w.sp)
      && KeptBut(w.mem, e.mem, SCRATCH, SCRATCH + 4 * fi.rc)
  {
    hide WRun, WStep, SaveResults, LoadResults, PopFrame, DataAll, Read;
    var body, t := ReturnData(fi, w);
    var tail := [Op(Ret)] + rest;
    assert Ops(body + [Ret]) + rest == Ops(body) + tail;
    WRunData(fi.rc, body, tail, labels, w);
    WRunAdd(fi.rc, Code(Ops(body) + tail, labels, w), |body|, 1);
    RetStep(fi.rc, rest, labels, t);
  }

  lemma ReturnData(fi: FuncInfo, w: WState) returns (body: seq<WOp>, t: WState)
    requires |w.stack| == fi.rc <= MAX_RESULTS && Words(w.stack)
    ensures ReturnCode(fi) == body + [Ret] && DataAll(body, w) == Some(t)
    ensures t.stack == w.stack && t.sp == Popped(fi, w.sp) && KeptBut(w.mem, t.mem, SCRATCH, SCRATCH + 4 * fi.rc)
  {
    hide SaveResults, LoadResults, PopFrame, Data, I32;
    body := [];
    t := w;
    if fi.slots > 0 {
      t := ReturnBody(fi, w);
      body := SaveResults(fi, fi.rc) + PopFrame(fi) + LoadResults(fi.rc);
    }
  }

  lemma RetStep(rc: nat, rest: seq<W>, labels: seq<OpenBlock>, t: WState)
    requires |t.stack| == rc
    ensures WRun(rc, Code([Op(Ret)] + rest, labels, t), 1) == Finished(t.stack, t.sp, t.mem)
  {
    WRunOne(rc, Code([Op(Ret)] + rest, labels, t));
    assert t.stack[0..] == t.stack;
  }

  lemma WRunOne(rc: nat, c: WConf)
    ensures WRun(rc, c, 1) == WStep(rc, c)
  {
    assert WRun(rc, WStep(rc, c), 0) == WStep(rc, c);
  }

  lemma ModOnce(x: int)
    requires 0 <= x < TWO32
    ensures x % TWO32 == x && x % TWO64 == x
  {
  }
}
