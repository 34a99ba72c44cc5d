/** The pending push: the top of the operand stack stays in a register until something else
    needs the stack. The functions give the code of each stack operation and instruction and
    what is pending after it; they refine a machine that pushes at once. */
module Pending {
  import opened Ir
  import opened Eager
  import opened Native

  /** The two targets differ in one thing here: a jump of the x86-64 emitter flushes first. */
  datatype Isa = X64 | Arm64

  /** The register whose push is still to come, if any. */
  type Pend = Option<Reg>

  function RawPush(r: Reg): seq<Asm> {
    [Grow, StoreTop(r)]
  }

  function RawPop(r: Reg): seq<Asm> {
    [LoadTop(r), Shrink]
  }

  function Move(d: Reg, r: Reg): seq<Asm> {
    if d == r then [] else [MovRR(d, r)]
  }

  function Flush(p: Pend): seq<Asm> {
    if p.Some? then RawPush(p.value) else []
  }

  type Out = (seq<Asm>, Pend)

  function OpPush(p: Pend, r: Reg): Out {
    (Flush(p), Some(r))
  }

  function OpPop(p: Pend, r: Reg): Out {
    (if p.Some? then Move(r, p.value) else RawPop(r), None)
  }

  function OpLoad(p: Pend, r: Reg): Out {
    (if p.Some? then Move(r, p.value) + Flush(p) else [LoadTop(r)], None)
  }

  function OpStore(p: Pend, r: Reg): Out {
    (Flush(p) + [StoreTop(r)], None)
  }

  function OpDrop(p: Pend): Out {
    (if p.Some? then [] else [AddSlot], None)
  }

  /** A constant takes the shortest encoding that gives it. */
  function LoadConst(v: int): Asm {
    if v == 0 then Zero(RAX)
    else if 0 < v <= 0x7fff_ffff then MovZero32(RAX, v)
    else if -0x8000_0000 <= v < 0 then MovSign32(RAX, v)
    else MovImm64(RAX, v)
  }

  function CondOf(op: BinOp): Cond {
    match op
    case Eq => CondE
    case Neq => CondNE
    case Lt => CondL
    case Gt => CondG
    case Leq => CondLE
    case _ => CondGE
  }

  function BinCode(op: BinOp): seq<Asm> {
    match op
    case Add => [Arith(op, RCX, RAX)]
    case Sub => [Arith(op, RCX, RAX)]
    case Mul => [Arith(op, RCX, RAX)]
    case _ => [Cmp(RCX, RAX), SetCC(CondOf(op), RCX)]
  }

  /** The code of one plain instruction and what is pending after it. */
  function InstCode(i: Inst, p: Pend): Out {
    match i
    case ConstI64(v) => (Flush(p) + [LoadConst(v)], Some(RAX))
    case ConstBool(arg) => (Flush(p) + [LoadConst(if arg != 0 then 1 else 0)], Some(RAX))
    case LocalGet(k) => (Flush(p) + [LoadLocal(RAX, k)], Some(RAX))
    case LocalSet(k) => (OpPop(p, RAX).0 + [StoreLocal(k, RAX)], None)
    case Drop => OpDrop(p)
    case Dup => (OpLoad(p, RAX).0, Some(RAX))
    case Bin(op) => (OpPop(p, RAX).0 + (OpPop(None, RCX).0 + BinCode(op)), Some(RCX))
    case Neg => (OpPop(p, RAX).0 + [NegR(RAX)], Some(RAX))
    case Not => (OpPop(p, RAX).0 + [FlipLow(RAX)], Some(RAX))
    case Label(l) => (Flush(p) + [Lbl(l)], None)
    case Jmp(l) => (Flush(p) + [JmpTo(l)], None)
    case JmpIf(l) => (OpPop(p, RAX).0 + [TestR(RAX)] + [Jcc(CondNE, l)], None)
    case JmpIfNot(l) => (OpPop(p, RAX).0 + [TestR(RAX)] + [Jcc(CondE, l)], None)
    case Return(_) => (Flush(p) + [Leave], None)
  }

  /** A load that gives 0 for a nil base. */
  function GuardedLoad(d: Reg, b: Reg, at: int, n: nat): seq<Asm> {
    [TestR(b), SkipIf(CondNE, 2), Native.Zero(d), Skip(1), LoadMem(d, b, at, n)]
  }

  /** Whatever is pending when a callee is entered goes to memory first. */
  function CallCode(f: string, n: nat, p: Pend): Out {
    (Flush(p) + [CallTo(f, n)], None)
  }

  // ----- interface calls -----

  /** The arguments go from the operand stack to the machine's stack, the last one first. */
  function SaveCode(n: nat, p: Pend): Out {
    if n == 0 then ([], p)
    else
      var r := SaveCode(n - 1, None);
      (OpPop(p, RAX).0 + [PushSaved(RAX)] + r.0, r.1)
  }

  function RestoreCode(n: nat, p: Pend): Out {
    if n == 0 then ([], p)
    else
      var r := RestoreCode(n - 1, Some(RAX));
      (Flush(p) + [PopSaved(RAX)] + r.0, r.1)
  }

  /** What stands before a jump inside a template, and what is pending after it. */
  function Branch(isa: Isa, p: Pend): Out {
    if isa.X64? then (Flush(p), None) else ([], p)
  }

  /** One arm of the dispatch chain: compare the type id, call the method, jump over the rest. */
  function Arm(isa: Isa, e: Impl, n: nat, p: Pend, rest: nat): seq<Asm> {
    var b := Branch(isa, p);
    var c := CallCode(e.f, n + 1, b.1);
    [CmpImm(RCX, e.id)] + (b.0 + ([SkipIf(CondNE, |c.0| + 1)] + (c.0 + [Skip(rest)])))
  }

  /** All arms, then a trap. */
  function Chain(isa: Isa, es: seq<Impl>, n: nat, p: Pend): Out {
    if es == [] then ([Trap], p)
    else
      var r := Chain(isa, es[1..], n, None);
      (Arm(isa, es[0], n, p, |r.0|) + r.0, r.1)
  }

  /** Take the arguments away, replace the interface value by what it holds, put the
      arguments back, then go by the type id. */
  function IfaceCode(isa: Isa, es: seq<Impl>, n: nat, p: Pend): Out {
    var a := SaveCode(n, p);
    var b := RestoreCode(n, Some(RDX));
    var c := Chain(isa, es, n, b.1);
    (a.0 + (OpPop(a.1, RAX).0 + ([LoadMem(RCX, RAX, 0, WORD), LoadMem(RDX, RAX, 8, WORD)]
      + (b.0 + ([PushSaved(RCX), PopSaved(RCX)] + c.0)))), c.1)
  }

  /** The code of one instruction and what is pending after it. */
  function OpCode(isa: Isa, o: Op, p: Pend): Out {
    match o
    case Basic(i) => InstCode(i, p)
    case Load(size) => (OpPop(p, RCX).0 + GuardedLoad(RAX, RCX, 0, Width(size)), Some(RAX))
    case Store(size) => (OpPop(p, RCX).0 + (OpPop(None, RAX).0 + [StoreMem(RCX, RAX, Width(size))]), None)
    case GlobalGet(k) => (Flush(p) + [GlobalAddr(RCX, k), LoadMem(RAX, RCX, 0, WORD)], Some(RAX))
    case GlobalSet(k) => (OpPop(p, RAX).0 + [GlobalAddr(RCX, k), StoreMem(RCX, RAX, WORD)], None)
    case Offset(k) => (OpPop(p, RAX).0 + (if k == 0 then [] else [AddImm(RAX, k)]), Some(RAX))
    case Len => (OpPop(p, RAX).0 + GuardedLoad(RAX, RAX, 8, WORD), Some(RAX))
    case Cap => (OpPop(p, RAX).0 + GuardedLoad(RAX, RAX, 16, WORD), Some(RAX))
    case Invoke(f, n) => CallCode(f, n, p)
    case IfaceCall(es, n) => IfaceCode(isa, es, n, p)
  }

  /** The code of a function body. */
  function Gen(code: seq<Op>): Out {
    if code == [] then ([], None)
    else
      var g := Gen(code[..|code| - 1]);
      var c := OpCode(X64, code[|code| - 1], g.1);
      (g.0 + c.0, c.1)
  }

  /** The prologue of a function stores its parameters, the last one first: what the caller
      pushed last is popped first. */
  function Prologue(n: nat): (r: seq<Op>)
    ensures |r| == n && forall i :: 0 <= i < n ==> r[i] == Basic(LocalSet(n - 1 - i))
  {
    seq(n, i requires 0 <= i < n => Basic(LocalSet(n - 1 - i)))
  }

  // ----- the lazy stack and the eager one -----

  function Waiting(p: Pend, g: Regs): seq<int> {
    if p.Some? then [Native.Get(g, p.value)] else []
  }

  /** Memory stack plus pending register: the operand stack that is meant. */
  function All(p: Pend, n: NState): seq<int> {
    n.stack + Waiting(p, n.regs)
  }

  ghost predicate AreWords(s: seq<int>) {
    forall i :: 0 <= i < |s| ==> 0 <= s[i] < TWO64
  }

  /** The lazy machine stands for this state of the eager one. */
  ghost predicate Refines(p: Pend, n: NState, s: XState) {
    && s.stack == All(p, n) && s.locals == n.locals && s.mem == n.mem && n.saved == []
    && AreWords(s.stack) && AreWords(s.locals)
  }

  // ----- what the stack operations mean -----

  /** The top of the stack in a register, and off the stack. */
  function Taken(all: seq<int>, r: Reg, n: NState): Option<NState> {
    if all == [] then None else Some(SetReg(n, r, all[|all| - 1]).(stack := all[..|all| - 1]))
  }

  /** The top of the stack in a register, the stack in memory. */
  function Seen(all: seq<int>, r: Reg, n: NState): Option<NState> {
    if all == [] then None else Some(SetReg(n, r, all[|all| - 1]).(stack := all))
  }

  /** A register on top of the stack instead of what was there. */
  function Overwritten(all: seq<int>, r: Reg, n: NState): Option<NState> {
    if all == [] then None else Some(n.(stack := all[..|all| - 1] + [Native.Get(n.regs, r)]))
  }

  /** The pending push is in memory; registers, frame and flags are as they were. */
  ghost predicate Flushes(os: seq<Asm>, p: Pend) {
    Closed(os) && forall w: World, n: NState :: ExecAll(w, os, n) == Some(n.(stack := All(p, n)))
  }

  /** The register holds the top of the stack, wherever that was; the rest is in memory. */
  ghost predicate Pops(os: seq<Asm>, p: Pend, r: Reg) {
    Closed(os) && forall w: World, n: NState :: ExecAll(w, os, n) == Taken(All(p, n), r, n)
  }

  /** The register holds the top of the stack; everything is in memory. */
  ghost predicate Loads(os: seq<Asm>, p: Pend, r: Reg) {
    Closed(os) && forall w: World, n: NState :: ExecAll(w, os, n) == Seen(All(p, n), r, n)
  }

  /** The top of the stack is replaced by the register; everything is in memory. */
  ghost predicate Stores(os: seq<Asm>, p: Pend, r: Reg) {
    Closed(os) && forall w: World, n: NState :: ExecAll(w, os, n) == Overwritten(All(p, n), r, n)
  }

  ghost predicate Dropped(p: Pend, n: NState, t: Option<NState>) {
    var all := All(p, n);
    match t
    case None => all == []
    case Some(t) => all != [] && t == n.(stack := all[..|all| - 1], flags := t.flags)
  }

  /** The top of the stack is gone; only the flags may have changed. */
  ghost predicate Drops(os: seq<Asm>, p: Pend) {
    Closed(os) && forall w: World, n: NState :: Dropped(p, n, ExecAll(w, os, n))
  }

  lemma FlushKeeps(p: Pend)
    ensures Flushes(Flush(p), p)
  {
    forall w: World, n: NState
      ensures ExecAll(w, Flush(p), n) == Some(n.(stack := All(p, n)))
    {
      if p.Some? {
        TwoOps(w, Grow, StoreTop(p.value), n, n.(stack := n.stack + [0]));
        assert (n.stack + [0])[|n.stack| := Native.Get(n.regs, p.value)] == All(p, n);
      } else {
        assert n.stack + [] == n.stack;
      }
    }
  }

  lemma TwoOps(w: World, a: Asm, b: Asm, s: NState, t: NState)
    requires !IsBranch(a) && !IsBranch(b) && !IsSkip(a) && !IsSkip(b) && Exec1(w, a, s) == Some(t)
    ensures Closed([a, b]) && ExecAll(w, [a, b], s) == Exec1(w, b, t)
  {
    hide Exec1;
    assert [a, b][1..] == [b];
    ExecOne(w, b, t);
  }

  lemma PopGives(p: Pend, r: Reg)
    ensures Pops(OpPop(p, r).0, p, r)
  {
    forall w: World, n: NState
      ensures ExecAll(w, OpPop(p, r).0, n) == Taken(All(p, n), r, n)
    {
      var all := All(p, n);
      if p.Some? {
        assert all[..|all| - 1] == n.stack;
        if r == p.value {
          assert Put(n.regs, r, Native.Get(n.regs, r)) == n.regs;
        } else {
          ExecOne(w, MovRR(r, p.value), n);
        }
      } else {
        assert all == n.stack;
        var os := RawPop(r);
        assert os[1..] == [Shrink] && os[1..][1..] == [];
      }
    }
  }

  lemma LoadGives(p: Pend, r: Reg)
    ensures Loads(OpLoad(p, r).0, p, r)
  {
    forall w: World, n: NState
      ensures Closed(OpLoad(p, r).0) && ExecAll(w, OpLoad(p, r).0, n) == Seen(All(p, n), r, n)
    {
      hide OpLoad, ExecAll, Closed, Seen;
      if p.Some? {
        LoadPending(w, p, r, n);
      } else {
        LoadMemory(w, r, n);
      }
    }
  }

  lemma LoadPending(w: World, p: Pend, r: Reg, n: NState)
    requires p.Some?
    ensures Closed(OpLoad(p, r).0) && ExecAll(w, OpLoad(p, r).0, n) == Seen(All(p, n), r, n)
  {
    var t := SetReg(n, r, Native.Get(n.regs, p.value));
    if r != p.value {
      ExecOne(w, MovRR(r, p.value), n);
    } else {
      assert t == n;
    }
    FlushKeeps(p);
    hide Closed, ExecAll, Exec1, Flush;
    assert All(p, t) == All(p, n);
    ExecAppend(w, Move(r, p.value), Flush(p), n);
  }

  lemma LoadMemory(w: World, r: Reg, n: NState)
    ensures Closed(OpLoad(None, r).0) && ExecAll(w, OpLoad(None, r).0, n) == Seen(All(None, n), r, n)
  {
    assert n.stack + [] == n.stack;
    ExecOne(w, LoadTop(r), n);
  }

  lemma StoreReplaces(p: Pend, r: Reg)
    ensures Stores(OpStore(p, r).0, p, r)
  {
    FlushKeeps(p);
    forall w: World, n: NState
      ensures ExecAll(w, OpStore(p, r).0, n) == Overwritten(All(p, n), r, n)
    {
      var all := All(p, n);
      ExecOne(w, StoreTop(r), n.(stack := all));
      ExecAppend(w, Flush(p), [StoreTop(r)], n);
      if all != [] {
        assert all[|all| - 1 := Native.Get(n.regs, r)] == all[..|all| - 1] + [Native.Get(n.regs, r)];
      }
    }
  }

  lemma DropRemoves(p: Pend)
    ensures Drops(OpDrop(p).0, p)
  {
    forall w: World, n: NState
      ensures Dropped(p, n, ExecAll(w, OpDrop(p).0, n))
    {
      var all := All(p, n);
      if p.Some? {
        assert all[..|all| - 1] == n.stack;
      } else {
        assert all == n.stack;
        ExecOne(w, AddSlot, n);
      }
    }
  }
}
