/** The target of the code generator, abstractly: three scratch registers, the operand stack
    (its pointer register moves without touching the flags), the frame, the machine's own
    stack, memory, the flags of the last comparison, labels and short forward jumps. */
module Native {
  import opened Ir
  import opened Eager

  datatype Reg = RAX | RCX | RDX

  datatype Regs = Regs(rax: int, rcx: int, rdx: int)

  function Get(g: Regs, r: Reg): int {
    match r case RAX => g.rax case RCX => g.rcx case RDX => g.rdx
  }

  function Put(g: Regs, r: Reg, v: int): Regs {
    match r case RAX => g.(rax := v) case RCX => g.(rcx := v) case RDX => g.(rdx := v)
  }

  datatype Cond = CondE | CondNE | CondL | CondG | CondLE | CondGE

  /** Arithmetic leaves the flags in a state nobody may rely on. */
  datatype Flags = Unknown | Compared(left: int, right: int)

  datatype Asm =
    | MovRR(dst: Reg, src: Reg)
    | Zero(dst: Reg)
    | MovZero32(dst: Reg, imm: int)
    | MovSign32(dst: Reg, imm: int)
    | MovImm64(dst: Reg, imm: int)
      /** Move the stack pointer down or up by one slot; the flags stay. */
    | Grow
    | Shrink
      /** Move it up by an addition, which does not preserve the flags. */
    | AddSlot
    | LoadTop(dst: Reg)
    | StoreTop(src: Reg)
    | LoadLocal(dst: Reg, idx: int)
    | StoreLocal(idx: int, src: Reg)
    | Arith(op: BinOp, dst: Reg, src: Reg)
    | NegR(dst: Reg)
    | FlipLow(dst: Reg)
    | Cmp(left: Reg, right: Reg)
    | CmpImm(left: Reg, imm: int)
    | TestR(left: Reg)
    | SetCC(cond: Cond, dst: Reg)
    | AddImm(dst: Reg, imm: int)
      /** The address of a global. */
    | GlobalAddr(dst: Reg, idx: int)
    | LoadMem(dst: Reg, base: Reg, disp: int, n: nat)
    | StoreMem(base: Reg, src: Reg, n: nat)
      /** The machine's own stack. */
    | PushSaved(src: Reg)
    | PopSaved(dst: Reg)
      /** A callee that takes its n arguments from the operand stack in memory. */
    | CallTo(f: string, n: nat)
    | Trap
      /** Forward jumps within a template: over so many instructions. */
    | Skip(over: nat)
    | SkipIf(cond: Cond, over: nat)
    | Lbl(l: int)
    | JmpTo(l: int)
    | Jcc(cond: Cond, l: int)
    | Leave

  datatype NState = NState(regs: Regs, stack: seq<int>, locals: seq<int>, flags: Flags, saved: seq<int>, mem: Mem)

  datatype NConf = NRunning(pc: nat, s: NState) | NDone(result: seq<int>, mem: Mem) | NCrashed

  function W(x: int): int {
    x % TWO64
  }

  function SignedWord(x: int): int {
    Signed(Native64, x)
  }

  predicate Test(c: Cond, a: int, b: int) {
    match c
    case CondE => a == b
    case CondNE => a != b
    case CondL => a < b
    case CondG => a > b
    case CondLE => a <= b
    case CondGE => a >= b
  }

  predicate IsBranch(i: Asm) {
    i.JmpTo? || i.Jcc? || i.Leave?
  }

  predicate IsSkip(i: Asm) {
    i.Skip? || i.SkipIf?
  }

  function SetReg(s: NState, r: Reg, v: int): NState {
    s.(regs := Put(s.regs, r, v))
  }

  function LoadInto(s: NState, d: Reg, v: Option<int>): Option<NState> {
    match v case Some(x) => Some(SetReg(s, d, x)) case None => None
  }

  function Stored(s: NState, mem: Option<Mem>): Option<NState> {
    match mem case Some(m) => Some(s.(mem := m)) case None => None
  }

  /** A callee takes its arguments and leaves its results on the operand stack; it may leave
      anything in the registers. */
  function AfterCall(w: World, f: string, n: nat, s: NState): Option<NState> {
    if |s.stack| < n then None
    else
      var k := |s.stack| - n;
      match w.callee(f, s.stack[k..], s.mem)
      case None => None
      case Some(r) =>
        var g := w.leftovers(f, s.mem);
        Some(s.(stack := s.stack[..k] + r.results, mem := r.mem, regs := Regs(g.0, g.1, g.2), flags := Unknown))
  }

  /** One instruction that does not jump; None where it would leave the stack or the frame,
      touch address 0, or use flags that are not those of a comparison. */
  function Exec1(w: World, i: Asm, s: NState): Option<NState> {
    var n := |s.stack|;
    match i
    case MovRR(d, r) => Some(SetReg(s, d, Get(s.regs, r)))
    case Zero(d) => Some(SetReg(s, d, 0).(flags := Unknown))
    case MovZero32(d, v) => Some(SetReg(s, d, v % TWO32))
    case MovSign32(d, v) =>
      var x := v % TWO32;
      Some(SetReg(s, d, W(if x >= TWO32 / 2 then x - TWO32 else x)))
    case MovImm64(d, v) => Some(SetReg(s, d, W(v)))
    case Grow => Some(s.(stack := s.stack + [0]))
    case Shrink => if n == 0 then None else Some(s.(stack := s.stack[..n - 1]))
    case AddSlot => if n == 0 then None else Some(s.(stack := s.stack[..n - 1], flags := Unknown))
    case LoadTop(d) => if n == 0 then None else Some(SetReg(s, d, s.stack[n - 1]))
    case StoreTop(r) => if n == 0 then None else Some(s.(stack := s.stack[n - 1 := Get(s.regs, r)]))
    case LoadLocal(d, k) => if 0 <= k < |s.locals| then Some(SetReg(s, d, s.locals[k])) else None
    case StoreLocal(k, r) =>
      if 0 <= k < |s.locals| then Some(s.(locals := s.locals[k := Get(s.regs, r)])) else None
    case Arith(op, d, r) =>
      var a, b := Get(s.regs, d), Get(s.regs, r);
      if op.Add? then Some(SetReg(s, d, W(a + b)).(flags := Unknown))
      else if op.Sub? then Some(SetReg(s, d, W(a - b)).(flags := Unknown))
      else if op.Mul? then Some(SetReg(s, d, W(a * b)).(flags := Unknown))
      else None
    case NegR(d) => Some(SetReg(s, d, W(-Get(s.regs, d))).(flags := Unknown))
    case FlipLow(d) =>
      var a := Get(s.regs, d);
      Some(SetReg(s, d, if a % 2 == 0 then a + 1 else a - 1).(flags := Unknown))
    case AddImm(d, k) => Some(SetReg(s, d, W(Get(s.regs, d) + k)).(flags := Unknown))
    case Cmp(a, b) => Some(s.(flags := Compared(SignedWord(Get(s.regs, a)), SignedWord(Get(s.regs, b)))))
    case CmpImm(a, k) => Some(s.(flags := Compared(SignedWord(Get(s.regs, a)), k)))
    case TestR(a) => Some(s.(flags := Compared(SignedWord(Get(s.regs, a)), 0)))
    case SetCC(c, d) =>
      if s.flags.Unknown? then None else Some(SetReg(s, d, FromBool(Test(c, s.flags.left, s.flags.right))))
    case GlobalAddr(d, k) => Some(SetReg(s, d, W(w.globals + 8 * k)))
    case LoadMem(d, b, at, k) => LoadInto(s, d, Read(s.mem, W(Get(s.regs, b) + at), k))
    case StoreMem(b, r, k) => Stored(s, Written(s.mem, W(Get(s.regs, b)), Get(s.regs, r), k))
    case PushSaved(r) => Some(s.(saved := s.saved + [Get(s.regs, r)]))
    case PopSaved(d) =>
      if s.saved == [] then None
      else Some(SetReg(s, d, s.saved[|s.saved| - 1]).(saved := s.saved[..|s.saved| - 1]))
    case CallTo(f, k) => AfterCall(w, f, k, s)
    case Lbl(_) => Some(s)
    case _ => None
  }

  /** The last position of a label. */
  function LabelAt(code: seq<Asm>, l: int): (p: Option<nat>)
    ensures p.Some? ==> p.value < |code|
  {
    if code == [] then None
    else if code[|code| - 1] == Lbl(l) then Some(|code| - 1)
    else LabelAt(code[..|code| - 1], l)
  }

  /** A jump to a label that does not exist keeps its placeholder and falls through. */
  function Target(code: seq<Asm>, pc: nat, l: int): nat {
    match LabelAt(code, l) case Some(p) => p case None => pc + 1
  }

  function NStep(w: World, code: seq<Asm>, c: NConf): NConf {
    if !c.NRunning? then c
    else if c.pc >= |code| then NCrashed
    else match code[c.pc]
      case JmpTo(l) => NRunning(Target(code, c.pc, l), c.s)
      case Jcc(k, l) =>
        if c.s.flags.Unknown? then NCrashed
        else NRunning(if Test(k, c.s.flags.left, c.s.flags.right) then Target(code, c.pc, l) else c.pc + 1, c.s)
      case Skip(k) => NRunning(c.pc + 1 + k, c.s)
      case SkipIf(b, k) =>
        if c.s.flags.Unknown? then NCrashed
        else NRunning(if Test(b, c.s.flags.left, c.s.flags.right) then c.pc + 1 + k else c.pc + 1, c.s)
      case Leave => NDone(c.s.stack, c.s.mem)
      case i => match Exec1(w, i, c.s) case Some(s) => NRunning(c.pc + 1, s) case None => NCrashed
  }

  function NRun(w: World, code: seq<Asm>, c: NConf, n: nat): NConf
    decreases n
  {
    if n == 0 then c else NRun(w, code, NStep(w, code, c), n - 1)
  }

  lemma {:induction false} NRunAdd(w: World, code: seq<Asm>, c: NConf, a: nat, b: nat)
    ensures NRun(w, code, c, a + b) == NRun(w, code, NRun(w, code, c, a), b)
    decreases a
  {
    if a > 0 {
      NRunAdd(w, code, NStep(w, code, c), a - 1, b);
    }
  }

  lemma {:induction false} NRunHalted(w: World, code: seq<Asm>, c: NConf, n: nat)
    requires !c.NRunning?
    ensures NRun(w, code, c, n) == c
    decreases n
  {
    if n > 0 {
      NRunHalted(w, code, c, n - 1);
    }
  }

  lemma NRunOne(w: World, code: seq<Asm>, c: NConf)
    ensures NRun(w, code, c, 1) == NStep(w, code, c)
  {
    assert NRun(w, code, NStep(w, code, c), 0) == NStep(w, code, c);
  }

  lemma NEndsOnce(w: World, code: seq<Asm>, c: NConf, a: nat, b: nat)
    requires !NRun(w, code, c, a).NRunning? && !NRun(w, code, c, b).NRunning?
    ensures NRun(w, code, c, a) == NRun(w, code, c, b)
  {
    if a <= b {
      NRunAdd(w, code, c, a, b - a);
      NRunHalted(w, code, NRun(w, code, c, a), b - a);
    } else {
      NRunAdd(w, code, c, b, a - b);
      NRunHalted(w, code, NRun(w, code, c, b), a - b);
    }
  }

  // ----- templates -----

  /** Control enters at the top and leaves at the bottom: no jump to a label, and every
      forward jump stays inside. */
  predicate Closed(os: seq<Asm>) {
    forall i :: 0 <= i < |os| ==> !IsBranch(os[i]) && (IsSkip(os[i]) ==> i + 1 + os[i].over <= |os|)
  }

  function ExecAll(w: World, os: seq<Asm>, s: NState): Option<NState>
    decreases |os|
  {
    if os == [] then Some(s)
    else match os[0]
      case Skip(k) => if k < |os| then ExecAll(w, os[1 + k..], s) else None
      case SkipIf(c, k) =>
        if s.flags.Unknown? || k >= |os| then None
        else if Test(c, s.flags.left, s.flags.right) then ExecAll(w, os[1 + k..], s)
        else ExecAll(w, os[1..], s)
      case i => match Exec1(w, i, s)
        case Some(t) => ExecAll(w, os[1..], t)
        case None => None
  }

  ghost predicate AsmAt(code: seq<Asm>, pc: nat, os: seq<Asm>) {
    pc + |os| <= |code| && code[pc..pc + |os|] == os
  }

  lemma AsmFirst(code: seq<Asm>, pc: nat, os: seq<Asm>)
    requires AsmAt(code, pc, os) && os != []
    ensures pc < |code| && code[pc] == os[0] && AsmAt(code, pc + 1, os[1..])
  {
    assert code[pc..pc + |os|][0] == code[pc];
    AsmDrop(code, pc, os, 1);
  }

  lemma AsmDrop(code: seq<Asm>, pc: nat, os: seq<Asm>, k: nat)
    requires AsmAt(code, pc, os) && k <= |os|
    ensures AsmAt(code, pc + k, os[k..])
  {
    assert code[pc + k..pc + |os|] == code[pc..pc + |os|][k..];
  }

  lemma AsmSplit(code: seq<Asm>, pc: nat, a: seq<Asm>, b: seq<Asm>)
    requires AsmAt(code, pc, a + b)
    ensures AsmAt(code, pc, a) && AsmAt(code, pc + |a|, b)
  {
    assert code[pc..pc + |a|] == (a + b)[..|a|];
    assert code[pc + |a|..pc + |a| + |b|] == (a + b)[|a|..];
  }

  lemma ClosedDrop(os: seq<Asm>, k: nat)
    requires Closed(os) && k <= |os|
    ensures Closed(os[k..])
  {
    forall i | 0 <= i < |os| - k
      ensures !IsBranch(os[k..][i]) && (IsSkip(os[k..][i]) ==> i + 1 + os[k..][i].over <= |os| - k)
    {
      assert os[k..][i] == os[k + i];
    }
  }

  /** What follows the first instruction, or the target of its jump. */
  function After(os: seq<Asm>, s: NState): (k: nat)
    requires Closed(os) && os != []
    ensures 1 <= k <= |os|
  {
    if os[0].Skip? then 1 + os[0].over
    else if os[0].SkipIf? && s.flags.Compared? && Test(os[0].cond, s.flags.left, s.flags.right) then 1 + os[0].over
    else 1
  }

  function First(w: World, os: seq<Asm>, s: NState): Option<NState>
    requires os != []
  {
    if os[0].Skip? then Some(s)
    else if os[0].SkipIf? then (if s.flags.Unknown? then None else Some(s))
    else Exec1(w, os[0], s)
  }

  lemma ExecNext(w: World, os: seq<Asm>, s: NState)
    requires Closed(os) && os != []
    ensures ExecAll(w, os, s) ==
      match First(w, os, s) case Some(t) => ExecAll(w, os[After(os, s)..], t) case None => None
  {
  }

  lemma StepNext(w: World, code: seq<Asm>, pc: nat, os: seq<Asm>, s: NState)
    requires AsmAt(code, pc, os) && Closed(os) && os != []
    ensures NRun(w, code, NRunning(pc, s), 1) ==
      match First(w, os, s) case Some(t) => NRunning(pc + After(os, s), t) case None => NCrashed
    ensures AsmAt(code, pc + After(os, s), os[After(os, s)..]) && Closed(os[After(os, s)..])
  {
    hide NRun;
    AsmFirst(code, pc, os);
    NRunOne(w, code, NRunning(pc, s));
    AsmDrop(code, pc, os, After(os, s));
    ClosedDrop(os, After(os, s));
  }

  /** Running a template does what executing it says, or crashes on the way. */
  lemma {:induction false} RunLine(w: World, code: seq<Asm>, pc: nat, os: seq<Asm>, s: NState) returns (k: nat)
    requires AsmAt(code, pc, os) && Closed(os)
    ensures NRun(w, code, NRunning(pc, s), k) ==
      match ExecAll(w, os, s) case Some(t) => NRunning(pc + |os|, t) case None => NCrashed
    ensures os != [] ==> k >= 1
    decreases |os|
  {
    hide First, Exec1, Closed;
    if os == [] {
      k := 0;
    } else {
      StepNext(w, code, pc, os, s);
      ExecNext(w, os, s);
      if First(w, os, s).None? {
        k := 1;
      } else {
        var t := First(w, os, s).value;
        k := RunLine(w, code, pc + After(os, s), os[After(os, s)..], t);
        NRunAdd(w, code, NRunning(pc, s), 1, k);
        k := 1 + k;
      }
    }
  }

  lemma {:induction false} ExecAppend(w: World, a: seq<Asm>, b: seq<Asm>, s: NState)
    requires Closed(a) && Closed(b)
    ensures Closed(a + b)
    ensures ExecAll(w, a + b, s) == match ExecAll(w, a, s) case Some(t) => ExecAll(w, b, t) case None => None
    decreases |a|
  {
    ClosedAppend(a, b);
    hide First, Exec1, Closed;
    if a == [] {
      assert a + b == b;
    } else {
      var k := After(a, s);
      SameFirst(w, a, b, s);
      ExecNext(w, a, s);
      ExecNext(w, a + b, s);
      assert (a + b)[k..] == a[k..] + b;
      if First(w, a, s).Some? {
        ClosedDrop(a, k);
        ExecAppend(w, a[k..], b, First(w, a, s).value);
      }
    }
  }

  lemma SameFirst(w: World, a: seq<Asm>, b: seq<Asm>, s: NState)
    requires Closed(a) && Closed(a + b) && a != []
    ensures First(w, a + b, s) == First(w, a, s) && After(a + b, s) == After(a, s)
  {
    assert (a + b)[0] == a[0];
  }

  lemma ClosedAppend(a: seq<Asm>, b: seq<Asm>)
    requires Closed(a) && Closed(b)
    ensures Closed(a + b)
  {
    forall i | 0 <= i < |a + b|
      ensures !IsBranch((a + b)[i]) && (IsSkip((a + b)[i]) ==> i + 1 + (a + b)[i].over <= |a + b|)
    {
      if i >= |a| {
        assert (a + b)[i] == b[i - |a|];
      }
    }
  }

  lemma ExecOne(w: World, i: Asm, s: NState)
    requires !IsBranch(i) && !IsSkip(i)
    ensures Closed([i]) && ExecAll(w, [i], s) == Exec1(w, i, s)
  {
    assert [i][1..] == [];
  }

  // ----- labels -----

  lemma {:induction false} LabelSkips(a: seq<Asm>, b: seq<Asm>, l: int)
    requires forall i :: 0 <= i < |b| ==> b[i] != Lbl(l)
    ensures LabelAt(a + b, l) == LabelAt(a, l)
    decreases |b|
  {
    if b == [] {
      assert a + b == a;
    } else {
      var n := |b| - 1;
      assert (a + b)[..|a + b| - 1] == a + b[..n];
      LabelSkips(a, b[..n], l);
    }
  }
}
