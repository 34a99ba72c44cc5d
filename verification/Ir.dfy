/** The flat stack-machine IR and the VM's step rules for it.

    A value is an integer; `Modulus` says how many values a machine word holds.
    Three machines run the same IR and differ only in word size and in how `!` is
    computed: the VM with 4- and 8-byte words and the x86-64 code generator's target. */
module Ir {

  datatype Option<+T> = None | Some(value: T)

  datatype BinOp = Add | Sub | Mul | Eq | Neq | Lt | Gt | Leq | Geq

  datatype Inst =
    | ConstI64(val: int)
    | ConstBool(arg: int)
    | LocalGet(idx: int)
    | LocalSet(idx: int)
    | Drop
    | Dup
    | Bin(op: BinOp)
    | Neg
    | Not
    | Label(l: int)
    | Jmp(l: int)
    | JmpIf(l: int)
    | JmpIfNot(l: int)
    | Return(n: nat)

  datatype Machine = Vm32 | Vm64 | Native64

  const TWO32: int := 0x1_0000_0000
  const TWO64: int := 0x1_0000_0000_0000_0000

  function Modulus(m: Machine): int {
    if m.Vm32? then TWO32 else TWO64
  }

  function Mask(m: Machine, x: int): int {
    x % Modulus(m)
  }

  /** The word read as a two's complement number. */
  function Signed(m: Machine, x: int): int {
    var y := x % Modulus(m);
    if y >= Modulus(m) / 2 then y - Modulus(m) else y
  }

  function FromBool(b: bool): int {
    if b then 1 else 0
  }

  /** `c` is the left operand (deeper on the stack), `a` the right one. */
  function BinVal(m: Machine, op: BinOp, c: int, a: int): int {
    match op
    case Add => Mask(m, c + a)
    case Sub => Mask(m, c - a)
    case Mul => Mask(m, c * a)
    case Eq => FromBool(Signed(m, c) == Signed(m, a))
    case Neq => FromBool(Signed(m, c) != Signed(m, a))
    case Lt => FromBool(Signed(m, c) < Signed(m, a))
    case Gt => FromBool(Signed(m, c) > Signed(m, a))
    case Leq => FromBool(Signed(m, c) <= Signed(m, a))
    case Geq => FromBool(Signed(m, c) >= Signed(m, a))
  }

  function NegVal(m: Machine, a: int): int {
    Mask(m, -a)
  }

  /** The VM tests for zero; native code flips the lowest bit. */
  function NotVal(m: Machine, a: int): int {
    if m.Native64? then (if a % 2 == 0 then a + 1 else a - 1) else FromBool(a == 0)
  }

  /** Constants are pushed as 64-bit words on every machine. */
  function ConstVal(val: int): int {
    val % TWO64
  }

  predicate IsControl(i: Inst) {
    i.Label? || i.Jmp? || i.JmpIf? || i.JmpIfNot? || i.Return?
  }

  predicate IsJump(i: Inst) {
    i.Jmp? || i.JmpIf? || i.JmpIfNot?
  }

  function Pops(i: Inst): nat {
    match i
    case LocalSet(_) => 1
    case Drop => 1
    case Dup => 1
    case Bin(_) => 2
    case Neg => 1
    case Not => 1
    case JmpIf(_) => 1
    case JmpIfNot(_) => 1
    case Return(n) => n
    case _ => 0
  }

  function Pushes(i: Inst): nat {
    match i
    case ConstI64(_) => 1
    case ConstBool(_) => 1
    case LocalGet(_) => 1
    case Dup => 2
    case Bin(_) => 1
    case Neg => 1
    case Not => 1
    case _ => 0
  }

  datatype State = State(stack: seq<int>, locals: seq<int>)

  predicate CanRun(i: Inst, s: State) {
    && !IsControl(i)
    && |s.stack| >= Pops(i)
    && (i.LocalGet? || i.LocalSet? ==> 0 <= i.idx < |s.locals|)
  }

  /** One instruction that only touches the operand stack and the locals. */
  function Apply(m: Machine, i: Inst, s: State): (r: State)
    requires CanRun(i, s)
    ensures |r.stack| == |s.stack| - Pops(i) + Pushes(i)
    ensures |r.locals| == |s.locals|
  {
    var n := |s.stack|;
    match i
    case ConstI64(v) => s.(stack := s.stack + [ConstVal(v)])
    case ConstBool(arg) => s.(stack := s.stack + [FromBool(arg != 0)])
    case LocalGet(idx) => s.(stack := s.stack + [s.locals[idx]])
    case LocalSet(idx) => State(s.stack[..n - 1], s.locals[idx := Mask(m, s.stack[n - 1])])
    case Drop => s.(stack := s.stack[..n - 1])
    case Dup => s.(stack := s.stack + [s.stack[n - 1]])
    case Bin(op) => s.(stack := s.stack[..n - 2] + [BinVal(m, op, s.stack[n - 2], s.stack[n - 1])])
    case Neg => s.(stack := s.stack[..n - 1] + [NegVal(m, s.stack[n - 1])])
    case Not => s.(stack := s.stack[..n - 1] + [NotVal(m, s.stack[n - 1])])
  }

  /** A function activation: running, returned with the values on its operand stack,
      or crashed (operand stack underflow, no such local). */
  datatype Conf = Running(pc: nat, s: State) | Done(result: seq<int>) | Crashed

  /** Where the VM's label table sends a jump: the last definition wins, a missing
      label reads as position 0. */
  function LabelPos(code: seq<Inst>, l: int): (p: nat)
    ensures p == 0 || p < |code|
  {
    if code == [] then 0
    else if code[|code| - 1] == Label(l) then |code| - 1
    else LabelPos(code[..|code| - 1], l)
  }

  function Step(m: Machine, code: seq<Inst>, c: Conf): Conf {
    if !c.Running? then c
    else if c.pc >= |code| then Done(c.s.stack)
    else
      var i := code[c.pc];
      var n := |c.s.stack|;
      match i
      case Label(_) => Running(c.pc + 1, c.s)
      case Jmp(l) => Running(LabelPos(code, l), c.s)
      case JmpIf(l) =>
        if n == 0 then Crashed
        else Running(if c.s.stack[n - 1] != 0 then LabelPos(code, l) else c.pc + 1,
                     c.s.(stack := c.s.stack[..n - 1]))
      case JmpIfNot(l) =>
        if n == 0 then Crashed
        else Running(if c.s.stack[n - 1] == 0 then LabelPos(code, l) else c.pc + 1,
                     c.s.(stack := c.s.stack[..n - 1]))
      case Return(_) => Done(c.s.stack)
      case _ => if CanRun(i, c.s) then Running(c.pc + 1, Apply(m, i, c.s)) else Crashed
  }

  function Run(m: Machine, code: seq<Inst>, c: Conf, n: nat): Conf
    decreases n
  {
    if n == 0 then c else Run(m, code, Step(m, code, c), n - 1)
  }

  lemma {:induction false} RunAdd(m: Machine, code: seq<Inst>, c: Conf, a: nat, b: nat)
    ensures Run(m, code, c, a + b) == Run(m, code, Run(m, code, c, a), b)
    decreases a
  {
    if a > 0 {
      RunAdd(m, code, Step(m, code, c), a - 1, b);
    }
  }

  lemma {:induction false} RunHalted(m: Machine, code: seq<Inst>, c: Conf, n: nat)
    requires !c.Running?
    ensures Run(m, code, c, n) == c
    decreases n
  {
    if n > 0 {
      RunHalted(m, code, c, n - 1);
    }
  }

  /** No label is defined twice. */
  ghost predicate DistinctLabels(code: seq<Inst>) {
    forall i, j :: 0 <= i < j < |code| && code[i].Label? && code[j].Label? ==> code[i].l != code[j].l
  }

  lemma {:induction false} LabelPosFound(code: seq<Inst>, p: nat)
    requires p < |code| && code[p].Label?
    requires DistinctLabels(code)
    ensures LabelPos(code, code[p].l) == p
  {
    if p != |code| - 1 {
      var c := code[..|code| - 1];
      assert c[p] == code[p];
      LabelPosFound(c, p);
    }
  }

  /** A label defined more than once is where it is defined last; a missing one is position 0. */
  lemma {:induction false} LabelPosLast(code: seq<Inst>, l: int)
    ensures var p := LabelPos(code, l);
      if Label(l) in code then code[p] == Label(l) && Label(l) !in code[p + 1..] else p == 0
  {
    if code != [] && code[|code| - 1] != Label(l) {
      var c := code[..|code| - 1];
      assert code == c + [code[|code| - 1]];
      LabelPosLast(c, l);
      var p := LabelPos(c, l);
      if Label(l) in code {
        assert code[p + 1..] == c[p + 1..] + [code[|code| - 1]];
      }
    }
  }

  /** A run that ends does so with one result only. */
  lemma {:induction false} ResultUnique(m: Machine, code: seq<Inst>, c: Conf, a: nat, b: nat)
    requires !Run(m, code, c, a).Running? && !Run(m, code, c, b).Running?
    ensures Run(m, code, c, a) == Run(m, code, c, b)
    decreases a > b
  {
    if a <= b {
      RunAdd(m, code, c, a, b - a);
      RunHalted(m, code, Run(m, code, c, a), b - a);
    } else {
      ResultUnique(m, code, c, b, a);
    }
  }
}
