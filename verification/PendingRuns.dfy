/** Whole runs: the code with pending pushes does what the eager machine does, through
    labels and jumps, and ends exactly when and how it ends. */
module PendingRuns {
  import opened Ir
  import opened Eager
  import opened Native
  import opened Pending
  import opened PendingInsts
  import IfaceCalls

  predicate Jumps(o: Op) {
    o.Basic? && IsJump(o.i)
  }

  predicate Returns(o: Op) {
    o.Basic? && o.i.Return?
  }

  /** What the compiler guarantees of a function's code: labels are distinct, jumps have
      labels, immediates can be encoded, the last instruction is a return. */
  ghost predicate Proper(code: seq<Op>) {
    && DistinctOps(code)
    && (forall i :: 0 <= i < |code| && Jumps(code[i]) ==> Basic(Label(code[i].i.l)) in code)
    && (forall i :: 0 <= i < |code| ==> Encodable(code[i]))
    && code != [] && Returns(code[|code| - 1])
  }

  /** Every instruction but labels, jumps and returns: the lazy code refines the eager step. */
  lemma OpRefines(w: World, o: Op, p: Pend, n: NState, s: XState)
    requires !Transfers(o) && Refines(p, n, s) && Encodable(o)
    ensures InStep(X64, w, o, p, n, s)
  {
    hide InStep, Refines, ExecAll;
    match o
    case Basic(i) => BasicRefines(w, i, p, n, s);
    case Load(size) => LoadRefines(w, RCX, 0, Width(size), o, p, n, s);
    case Store(size) => StoreRefines(w, size, p, n, s);
    case GlobalGet(k) => GlobalGets(w, k, p, n, s);
    case GlobalSet(k) => GlobalSets(w, k, p, n, s);
    case Offset(k) => Offsets(w, k, p, n, s);
    case Len => LoadRefines(w, RAX, 8, WORD, o, p, n, s);
    case Cap => LoadRefines(w, RAX, 16, WORD, o, p, n, s);
    case Invoke(f, k) => CallRefines(w, f, k, p, n, s);
    case IfaceCall(es, k) => IfaceCalls.IfaceRefines(X64, w, es, k, p, n, s);
  }

  lemma LoadRefines(w: World, q: Reg, at: int, k: nat, o: Op, p: Pend, n: NState, s: XState)
    requires Refines(p, n, s)
    requires (o.Load? && q == RCX && at == 0 && k == Width(o.size)) || (o.Len? && q == RAX && at == 8 && k == WORD)
          || (o.Cap? && q == RAX && at == 16 && k == WORD)
    ensures InStep(X64, w, o, p, n, s)
  {
    hide Refines, ExecAll, Closed, OpPop, GuardedLoad, Guarded;
    LoadsThrough(w, q, at, k, p, n, s);
  }

  lemma BasicRefines(w: World, i: Inst, p: Pend, n: NState, s: XState)
    requires !IsControl(i) && Refines(p, n, s) && Encodable(Basic(i))
    ensures InStep(X64, w, Basic(i), p, n, s)
  {
    hide InStep, Refines, ExecAll;
    match i
    case ConstI64(v) => PushesConst(w, i, v, p, n, s);
    case ConstBool(arg) => PushesConst(w, i, if arg != 0 then 1 else 0, p, n, s);
    case LocalGet(k) => PushesLocal(w, k, p, n, s);
    case LocalSet(k) => PopsToLocal(w, k, p, n, s);
    case Drop => DropsTop(w, p, n, s);
    case Dup => Dups(w, p, n, s);
    case Bin(op) => BinRefines(w, op, p, n, s);
    case Neg => UnaryRefines(w, i, NegR(RAX), p, n, s);
    case Not => UnaryRefines(w, i, FlipLow(RAX), p, n, s);
  }

  function PosOf(code: seq<Op>, i: nat): nat
    requires i <= |code|
  {
    |Gen(code[..i]).0|
  }

  function PendAt(code: seq<Op>, i: nat): Pend
    requires i <= |code|
  {
    Gen(code[..i]).1
  }

  function CodeAt(code: seq<Op>, i: nat): Out
    requires i < |code|
  {
    OpCode(X64, code[i], PendAt(code, i))
  }

  // ----- positions -----

  lemma GenNext(code: seq<Op>, i: nat)
    requires i < |code|
    ensures Gen(code[..i + 1]) == (Gen(code[..i]).0 + CodeAt(code, i).0, CodeAt(code, i).1)
  {
    assert code[..i + 1][..i] == code[..i];
  }

  lemma {:induction false} GenPrefix(code: seq<Op>, i: nat)
    requires i <= |code|
    ensures Gen(code[..i]).0 <= Gen(code).0
    decreases |code| - i
  {
    if i == |code| {
      assert code[..i] == code;
    } else {
      GenNext(code, i);
      GenPrefix(code, i + 1);
    }
  }

  /** Where the code of instruction i stands. */
  lemma Stands(code: seq<Op>, i: nat)
    requires i < |code|
    ensures AsmAt(Gen(code).0, PosOf(code, i), CodeAt(code, i).0)
    ensures PosOf(code, i + 1) == PosOf(code, i) + |CodeAt(code, i).0| && PendAt(code, i + 1) == CodeAt(code, i).1
  {
    hide OpCode, Gen;
    GenNext(code, i);
    GenPrefix(code, i + 1);
    var a, b, all := Gen(code[..i]).0, CodeAt(code, i).0, Gen(code).0;
    assert all[..|a + b|] == a + b;
    assert all[|a|..|a| + |b|] == all[..|a + b|][|a|..] == b;
  }

  predicate NoLabelIn(os: seq<Asm>, l: int) {
    forall k :: 0 <= k < |os| ==> os[k] != Lbl(l)
  }

  lemma NoLabelAppend(a: seq<Asm>, b: seq<Asm>, l: int)
    requires NoLabelIn(a, l) && NoLabelIn(b, l)
    ensures NoLabelIn(a + b, l)
  {
  }

  lemma NoLabel(o: Op, p: Pend, l: int)
    requires o != Basic(Label(l))
    ensures NoLabelIn(OpCode(X64, o, p).0, l)
  {
    match o
    case Basic(i) => InstNoLabel(i, p, l);
    case IfaceCall(es, k) => IfaceNoLabel(es, k, p, l);
    case Load(size) => NoLabelAppend(OpPop(p, RCX).0, GuardedLoad(RAX, RCX, 0, Width(size)), l);
    case Len => NoLabelAppend(OpPop(p, RAX).0, GuardedLoad(RAX, RAX, 8, WORD), l);
    case Cap => NoLabelAppend(OpPop(p, RAX).0, GuardedLoad(RAX, RAX, 16, WORD), l);
    case _ =>
  }

  lemma InstNoLabel(i: Inst, p: Pend, l: int)
    requires i != Label(l)
    ensures NoLabelIn(InstCode(i, p).0, l)
  {
  }

  lemma IfaceNoLabel(es: seq<Impl>, k: nat, p: Pend, l: int)
    ensures NoLabelIn(IfaceCode(X64, es, k, p).0, l)
  {
    var a, b := SaveCode(k, p), RestoreCode(k, Some(RDX));
    SaveNoLabel(k, p, l);
    RestoreNoLabel(k, Some(RDX), l);
    ChainNoLabel(es, k, b.1, l);
    var pop := OpPop(a.1, RAX).0;
    assert NoLabelIn(pop, l);
    hide NoLabelIn, OpPop, SaveCode, RestoreCode, Chain;
    var loads, keep := [LoadMem(RCX, RAX, 0, WORD), LoadMem(RDX, RAX, 8, WORD)], [PushSaved(RCX), PopSaved(RCX)];
    var chain := Chain(X64, es, k, b.1).0;
    FewNoLabel(l);
    NoLabelAppend(keep, chain, l);
    NoLabelAppend(b.0, keep + chain, l);
    NoLabelAppend(loads, b.0 + (keep + chain), l);
    NoLabelAppend(pop, loads + (b.0 + (keep + chain)), l);
    NoLabelAppend(a.0, pop + (loads + (b.0 + (keep + chain))), l);
  }

  lemma FewNoLabel(l: int)
    ensures NoLabelIn([LoadMem(RCX, RAX, 0, WORD), LoadMem(RDX, RAX, 8, WORD)], l)
    ensures NoLabelIn([PushSaved(RCX), PopSaved(RCX)], l)
  {
  }

  lemma {:induction false} SaveNoLabel(k: nat, p: Pend, l: int)
    ensures NoLabelIn(SaveCode(k, p).0, l)
    decreases k
  {
    if k > 0 {
      SaveNoLabel(k - 1, None, l);
    }
  }

  lemma {:induction false} RestoreNoLabel(k: nat, p: Pend, l: int)
    ensures NoLabelIn(RestoreCode(k, p).0, l)
    decreases k
  {
    if k > 0 {
      RestoreNoLabel(k - 1, Some(RAX), l);
    }
  }

  lemma {:induction false} ChainNoLabel(es: seq<Impl>, k: nat, p: Pend, l: int)
    ensures NoLabelIn(Chain(X64, es, k, p).0, l)
    decreases es
  {
    if es != [] {
      ChainNoLabel(es[1..], k, None, l);
      ArmNoLabel(es[0], k, p, |Chain(X64, es[1..], k, None).0|, l);
    }
  }

  lemma ArmNoLabel(e: Impl, k: nat, p: Pend, rest: nat, l: int)
    ensures NoLabelIn(Arm(X64, e, k, p, rest), l)
  {
  }

  predicate IsLabel(o: Op, l: int) {
    o == Basic(Label(l))
  }

  /** The native label of an IR label: after the flush, before anything else. */
  lemma {:induction false} LabelStands(code: seq<Op>, t: nat, l: int)
    requires t < |code| && IsLabel(code[t], l) && DistinctOps(code)
    ensures LabelAt(Gen(code).0, l) == Some(PosOf(code, t + 1) - 1)
    decreases |code|
  {
    hide OpCode, NoLabelIn;
    var n := |code| - 1;
    var c, last := code[..n], OpCode(X64, code[n], Gen(code[..n]).1);
    if t == n {
      assert code[..t + 1] == code;
      EndsInLabel(l, Gen(c).1);
      var all := Gen(code).0;
      assert all[|all| - 1] == last.0[|last.0| - 1];
    } else {
      assert c[..t + 1] == code[..t + 1] && c[t] == code[t];
      LabelStands(c, t, l);
      NoLabel(code[n], Gen(c).1, l);
      Skipped(Gen(c).0, last.0, l);
    }
  }

  lemma Skipped(a: seq<Asm>, b: seq<Asm>, l: int)
    requires NoLabelIn(b, l)
    ensures LabelAt(a + b, l) == LabelAt(a, l)
  {
    LabelSkips(a, b, l);
  }

  lemma EndsInLabel(l: int, p: Pend)
    ensures var c := OpCode(X64, Basic(Label(l)), p);
      c.1 == None && c.0 != [] && c.0[|c.0| - 1] == Lbl(l)
  {
  }

  // ----- one step of the eager machine -----

  /** Both machines stand before the same instruction. */
  ghost predicate Matched(code: seq<Op>, c: XConf, d: NConf) {
    && c.Going? && d.NRunning? && c.pc < |code|
    && d.pc == PosOf(code, c.pc) && Refines(PendAt(code, c.pc), d.s, c.s)
  }

  /** The two machines have stopped in the same way. */
  ghost predicate SameEnd(c: XConf, d: NConf) {
    (c.Ended? && d == NDone(c.result, c.mem)) || (c.Faulted? && d.NCrashed?)
  }

  /** After at least one eager step and k lazy ones they stand together again, or have ended. */
  ghost predicate Meets(w: World, code: seq<Op>, c: XConf, d: NConf, m: nat, k: nat) {
    var c', d' := XRun(w, code, c, m), NRun(w, Gen(code).0, d, k);
    && m >= 1
    && (SameEnd(c', d') || (Matched(code, c', d') && (k >= 1 || (c.Going? && c'.pc > c.pc))))
  }

  lemma RunOne(w: World, code: seq<Op>, c: XConf)
    ensures XRun(w, code, c, 1) == XStep(w, code, c)
  {
    assert XRun(w, code, XStep(w, code, c), 0) == XStep(w, code, c);
  }

  lemma {:induction false} PlainStep(w: World, code: seq<Op>, c: XConf, d: NConf) returns (k: nat)
    requires Proper(code) && Matched(code, c, d) && !Transfers(code[c.pc])
    ensures Meets(w, code, c, d, 1, k)
  {
    hide OpCode, Gen, Refines, NRun, XRun, ExecAll, Effect, Closed;
    var o, p := code[c.pc], PendAt(code, c.pc);
    Stands(code, c.pc);
    OpRefines(w, o, p, d.s, c.s);
    k := RunLine(w, Gen(code).0, d.pc, OpCode(X64, o, p).0, d.s);
    RunOne(w, code, c);
    NotLast(code, c.pc);
  }

  lemma NotLast(code: seq<Op>, i: nat)
    requires Proper(code) && i < |code| && !Returns(code[i])
    ensures i + 1 < |code|
  {
  }

  /** A flush, then the instruction behind it: where the machine stands then. */
  lemma Flushed(w: World, g: seq<Asm>, p: Pend, n: NState, s: XState, i: Asm, pc: nat) returns (k: nat)
    requires AsmAt(g, pc, Flush(p) + [i]) && Refines(p, n, s)
    ensures NRun(w, g, NRunning(pc, n), k) == NRunning(pc + |Flush(p)|, n.(stack := s.stack))
    ensures Refines(None, n.(stack := s.stack), s) && pc + |Flush(p)| < |g| && g[pc + |Flush(p)|] == i
  {
    hide NRun, ExecAll, Closed, Flush;
    AsmSplit(g, pc, Flush(p), [i]);
    AsmFirst(g, pc + |Flush(p)|, [i]);
    FlushUse(w, p, n);
    k := RunLine(w, g, pc, Flush(p), n);
    assert s.stack + [] == s.stack;
  }

  lemma LabelStep(w: World, code: seq<Op>, c: XConf, d: NConf) returns (k: nat)
    requires Proper(code) && Matched(code, c, d) && code[c.pc].Basic? && code[c.pc].i.Label?
    ensures Meets(w, code, c, d, 1, k)
  {
    hide Gen, NRun, XRun, ExecAll, Refines;
    var p, g, l := PendAt(code, c.pc), Gen(code).0, code[c.pc].i.l;
    Stands(code, c.pc);
    NotLast(code, c.pc);
    k := Flushed(w, g, p, d.s, c.s, Lbl(l), d.pc);
    NRunOne(w, g, NRunning(d.pc + |Flush(p)|, d.s.(stack := c.s.stack)));
    NRunAdd(w, g, d, k, 1);
    RunOne(w, code, c);
    k := k + 1;
  }

  /** A jump lands behind the flush that precedes its label: nothing is pending there on
      either edge. */
  lemma JumpLands(w: World, code: seq<Op>, l: int, pc: nat, n: NState, s: XState) returns (t: nat)
    requires Proper(code) && Basic(Label(l)) in code && Refines(None, n, s)
    ensures t + 1 < |code| && code[t] == Basic(Label(l)) && OpLabelPos(code, l) == t
    ensures NRun(w, Gen(code).0, NRunning(Target(Gen(code).0, pc, l), n), 1) == NRunning(PosOf(code, t + 1), n)
    ensures PendAt(code, t + 1) == None
  {
    hide Gen, OpCode, NRun, OpLabelPos, LabelAt, Refines;
    t :| 0 <= t < |code| && code[t] == Basic(Label(l));
    OpLabelFound(code, t);
    LabelStands(code, t, l);
    NotLast(code, t);
    Stands(code, t);
    EndsInLabel(l, PendAt(code, t));
    var g, q := Gen(code).0, PosOf(code, t + 1) - 1;
    LabelHere(g, q, l);
    NRunOne(w, g, NRunning(q, n));
  }

  lemma {:induction false} LabelHere(g: seq<Asm>, q: int, l: int)
    requires q >= 0 && LabelAt(g, l) == Some(q)
    ensures q < |g| && g[q] == Lbl(l)
    decreases |g|
  {
    if g[|g| - 1] != Lbl(l) {
      LabelHere(g[..|g| - 1], q, l);
    }
  }

  lemma GotoStep(w: World, code: seq<Op>, c: XConf, d: NConf) returns (k: nat)
    requires Proper(code) && Matched(code, c, d) && code[c.pc].Basic? && code[c.pc].i.Jmp?
    ensures Meets(w, code, c, d, 2, k)
  {
    hide Gen, NRun, XRun, ExecAll, Refines, OpLabelPos, LabelAt;
    var p, g, l := PendAt(code, c.pc), Gen(code).0, code[c.pc].i.l;
    Stands(code, c.pc);
    k := Flushed(w, g, p, d.s, c.s, JmpTo(l), d.pc);
    var q, n := d.pc + |Flush(p)|, d.s.(stack := c.s.stack);
    NRunOne(w, g, NRunning(q, n));
    NRunAdd(w, g, d, k, 1);
    var t := JumpLands(w, code, l, q, n, c.s);
    NRunAdd(w, g, d, k + 1, 1);
    TwoSteps(w, code, c, c.s, t, l);
    k := k + 2;
  }

  /** A jump and the label it goes to. */
  lemma TwoSteps(w: World, code: seq<Op>, c: XConf, s: XState, t: nat, l: int)
    requires XStep(w, code, c) == Going(OpLabelPos(code, l), s) && OpLabelPos(code, l) == t < |code| &&
             code[t] == Basic(Label(l))
    ensures XRun(w, code, c, 2) == Going(t + 1, s)
  {
    RunOne(w, code, c);
    RunOne(w, code, Going(t, s));
    XRunAdd(w, code, c, 1, 1);
  }

  /** A conditional jump: the value is popped and compared with zero, the branch reads those flags. */
  lemma BranchStep(w: World, code: seq<Op>, c: XConf, d: NConf) returns (m: nat, k: nat)
    requires Proper(code) && Matched(code, c, d) && code[c.pc].Basic? && (code[c.pc].i.JmpIf? || code[c.pc].i.JmpIfNot?)
    ensures Meets(w, code, c, d, m, k)
  {
    hide Gen, NRun, XRun, ExecAll, Refines, OpLabelPos, LabelAt, OpPop, Closed, NStep, Target;
    var i, p, g := code[c.pc].i, PendAt(code, c.pc), Gen(code).0;
    var cc := if i.JmpIf? then CondNE else CondE;
    var test, j := OpPop(p, RAX).0 + [TestR(RAX)], [Jcc(cc, i.l)];
    Stands(code, c.pc);
    NotLast(code, c.pc);
    AsmSplit(g, d.pc, test, j);
    var n := Compared0(w, p, d.s, c.s);
    k := RunLine(w, g, d.pc, test, d.s);
    RunOne(w, code, c);
    m := 1;
    if c.s.stack != [] {
      var v, s := c.s.stack[|c.s.stack| - 1], c.s.(stack := c.s.stack[..|c.s.stack| - 1]);
      var q := d.pc + |test|;
      AsmFirst(g, q, j);
      JccStep(w, g, q, cc, i.l, n, v);
      NRunAdd(w, g, d, k, 1);
      if (v != 0) == i.JmpIf? {
        var t := JumpLands(w, code, i.l, q, n, s);
        NRunAdd(w, g, d, k + 1, 1);
        TwoSteps(w, code, c, s, t, i.l);
        m, k := 2, k + 2;
      } else {
        k := k + 1;
      }
    }
  }

  /** The branch goes by the comparison with zero. */
  lemma JccStep(w: World, g: seq<Asm>, q: nat, cc: Cond, l: int, n: NState, v: int)
    requires q < |g| && g[q] == Jcc(cc, l) && (cc.CondNE? || cc.CondE?)
    requires n.flags.Compared? && n.flags.right == 0 && (n.flags.left == 0 <==> v == 0)
    ensures NRun(w, g, NRunning(q, n), 1)
         == NRunning(if (v != 0) == cc.CondNE? then Target(g, q, l) else q + 1, n)
  {
    hide LabelAt, Target;
    NRunOne(w, g, NRunning(q, n));
  }

  lemma Compared0(w: World, p: Pend, n: NState, s: XState) returns (t: NState)
    requires Refines(p, n, s)
    ensures var os := OpPop(p, RAX).0 + [TestR(RAX)];
      && Closed(os)
      && (s.stack == [] ==> ExecAll(w, os, n) == None)
      && (s.stack != [] ==>
           && ExecAll(w, os, n) == Some(t) && Refines(None, t, s.(stack := s.stack[..|s.stack| - 1]))
           && t.flags.Compared? && t.flags.right == 0 && (t.flags.left == 0 <==> s.stack[|s.stack| - 1] == 0))
  {
    hide OpPop, ExecAll, Closed;
    ExecOne(w, TestR(RAX), n);
    var u := PopThen(w, p, RAX, [TestR(RAX)], n, s);
    t := n;
    if s.stack != [] {
      ExecOne(w, TestR(RAX), u);
      t := Exec1(w, TestR(RAX), u).value;
      WordZero(s.stack[|s.stack| - 1]);
      assert All(None, t) == All(None, u);
    }
  }

  lemma WordZero(v: int)
    requires 0 <= v < TWO64
    ensures SignedWord(v) == 0 <==> v == 0
  {
  }

  lemma ReturnStep(w: World, code: seq<Op>, c: XConf, d: NConf) returns (k: nat)
    requires Proper(code) && Matched(code, c, d) && Returns(code[c.pc])
    ensures Meets(w, code, c, d, 1, k)
  {
    hide Gen, NRun, XRun, ExecAll, Refines;
    var p, g := PendAt(code, c.pc), Gen(code).0;
    Stands(code, c.pc);
    k := Flushed(w, g, p, d.s, c.s, Leave, d.pc);
    NRunOne(w, g, NRunning(d.pc + |Flush(p)|, d.s.(stack := c.s.stack)));
    NRunAdd(w, g, d, k, 1);
    RunOne(w, code, c);
    assert d.s.mem == c.s.mem by { RefinesMem(p, d.s, c.s); }
    k := k + 1;
  }

  lemma RefinesMem(p: Pend, n: NState, s: XState)
    requires Refines(p, n, s)
    ensures n.mem == s.mem
  {
  }

  lemma SimStep(w: World, code: seq<Op>, c: XConf, d: NConf) returns (m: nat, k: nat)
    requires Proper(code) && Matched(code, c, d)
    ensures Meets(w, code, c, d, m, k)
  {
    hide Gen, NRun, XRun, Refines, Meets, PosOf, PendAt;
    m := 1;
    var o := code[c.pc];
    if !Transfers(o) {
      k := PlainStep(w, code, c, d);
    } else {
      match o.i
      case Label(_) => k := LabelStep(w, code, c, d);
      case Jmp(_) => m := 2; k := GotoStep(w, code, c, d);
      case JmpIf(_) => m, k := BranchStep(w, code, c, d);
      case JmpIfNot(_) => m, k := BranchStep(w, code, c, d);
      case Return(_) => k := ReturnStep(w, code, c, d);
    }
  }

  // ----- whole runs -----

  lemma NotBefore(w: World, code: seq<Op>, c: XConf, n: nat, m: nat)
    requires !XRun(w, code, c, n).Going? && XRun(w, code, c, m).Going?
    ensures m < n
  {
    if n <= m {
      XRunAdd(w, code, c, n, m - n);
      XRunHalted(w, code, XRun(w, code, c, n), m - n);
    }
  }

  lemma NNotBefore(w: World, g: seq<Asm>, d: NConf, n: nat, m: nat)
    requires !NRun(w, g, d, n).NRunning? && NRun(w, g, d, m).NRunning?
    ensures m < n
  {
    if n <= m {
      NRunAdd(w, g, d, n, m - n);
      NRunHalted(w, g, NRun(w, g, d, n), m - n);
    }
  }

  lemma {:induction false} EagerEnds(w: World, code: seq<Op>, c: XConf, d: NConf, n: nat) returns (k: nat)
    requires Proper(code) && Matched(code, c, d) && !XRun(w, code, c, n).Going?
    ensures SameEnd(XRun(w, code, c, n), NRun(w, Gen(code).0, d, k))
    decreases n
  {
    hide XRun, NRun, Gen, Refines, Proper, PosOf, PendAt;
    var m, j := SimStep(w, code, c, d);
    if SameEnd(XRun(w, code, c, m), NRun(w, Gen(code).0, d, j)) {
      XEndsOnce(w, code, c, n, m);
      k := j;
    } else {
      NotBefore(w, code, c, n, m);
      XRunAdd(w, code, c, m, n - m);
      var i := EagerEnds(w, code, XRun(w, code, c, m), NRun(w, Gen(code).0, d, j), n - m);
      NRunAdd(w, Gen(code).0, d, j, i);
      k := j + i;
    }
  }

  lemma {:induction false} LazyEnds(w: World, code: seq<Op>, c: XConf, d: NConf, n: nat) returns (m: nat)
    requires Proper(code) && Matched(code, c, d) && !NRun(w, Gen(code).0, d, n).NRunning?
    ensures SameEnd(XRun(w, code, c, m), NRun(w, Gen(code).0, d, n))
    decreases n, |code| - c.pc
  {
    hide XRun, NRun, Gen, Refines, Proper, PosOf, PendAt;
    var k;
    m, k := SimStep(w, code, c, d);
    if SameEnd(XRun(w, code, c, m), NRun(w, Gen(code).0, d, k)) {
      NEndsOnce(w, Gen(code).0, d, n, k);
    } else {
      NNotBefore(w, Gen(code).0, d, n, k);
      NRunAdd(w, Gen(code).0, d, k, n - k);
      var i := LazyEnds(w, code, XRun(w, code, c, m), NRun(w, Gen(code).0, d, k), n - k);
      XRunAdd(w, code, c, m, i);
      m := m + i;
    }
  }

  ghost predicate EagerStops(w: World, code: seq<Op>, s: XState, e: XConf) {
    !e.Going? && exists n: nat :: XRun(w, code, Going(0, s), n) == e
  }

  ghost predicate LazyStops(w: World, code: seq<Op>, s: NState, e: NConf) {
    !e.NRunning? && exists n: nat :: NRun(w, Gen(code).0, NRunning(0, s), n) == e
  }

  /** The generated code, with its pending pushes, ends with the values r and the memory mem
      exactly when the machine that pushes at once does, and stops on a fault exactly when that
      one does - in every world, whatever the registers and flags hold at entry. */
  lemma PendingPreserves(w: World, code: seq<Op>, s: XState, n: NState, r: seq<int>, mem: Mem)
    requires Proper(code) && Refines(None, n, s)
    ensures EagerStops(w, code, s, Ended(r, mem)) <==> LazyStops(w, code, n, NDone(r, mem))
    ensures EagerStops(w, code, s, Faulted) <==> LazyStops(w, code, n, NCrashed)
  {
    assert code[..0] == [];
    hide XRun, NRun, Refines, Proper;
    Forward(w, code, s, n, Ended(r, mem));
    Forward(w, code, s, n, Faulted);
    Backward(w, code, s, n, NDone(r, mem));
    Backward(w, code, s, n, NCrashed);
  }

  lemma Forward(w: World, code: seq<Op>, s: XState, n: NState, e: XConf)
    requires Proper(code) && Matched(code, Going(0, s), NRunning(0, n))
    ensures EagerStops(w, code, s, e) ==> LazyStops(w, code, n, if e.Ended? then NDone(e.result, e.mem) else NCrashed)
  {
    hide XRun, NRun, Gen, Refines, Proper;
    if EagerStops(w, code, s, e) {
      var m: nat :| XRun(w, code, Going(0, s), m) == e;
      var k := EagerEnds(w, code, Going(0, s), NRunning(0, n), m);
    }
  }

  lemma Backward(w: World, code: seq<Op>, s: XState, n: NState, e: NConf)
    requires Proper(code) && Matched(code, Going(0, s), NRunning(0, n))
    ensures LazyStops(w, code, n, e) ==> EagerStops(w, code, s, if e.NDone? then Ended(e.result, e.mem) else Faulted)
  {
    hide XRun, NRun, Gen, Refines, Proper;
    if LazyStops(w, code, n, e) {
      var k: nat :| NRun(w, Gen(code).0, NRunning(0, n), k) == e;
      var m := LazyEnds(w, code, Going(0, s), NRunning(0, n), k);
    }
  }
}
