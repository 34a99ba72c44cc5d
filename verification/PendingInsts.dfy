/** Every instruction that is not a label, a jump or a return: the code with pending pushes
    does what the machine that pushes at once does, or both stop on a fault. */
module PendingInsts {
  import opened Ir
  import opened Eager
  import opened Native
  import opened Pending

  predicate InWord(v: int) {
    -(TWO64 / 2) <= v < TWO64 / 2
  }

  const HALF32: int := TWO32 / 2

  /** Constants are words, offsets and type ids fit the immediate they are put in. */
  predicate Encodable(o: Op) {
    && (o.Basic? && o.i.ConstI64? ==> InWord(o.i.val))
    && (o.IfaceCall? ==> IdsFit(o.es))
  }

  predicate IdsFit(es: seq<Impl>) {
    forall i :: 0 <= i < |es| ==> 0 <= es[i].id < HALF32
  }

  /** The instruction is executed by both machines, or stops both. */
  ghost predicate InStep(isa: Isa, w: World, o: Op, p: Pend, n: NState, s: XState)
    requires !Transfers(o)
  {
    && Closed(OpCode(isa, o, p).0)
    && Agree(OpCode(isa, o, p).1, ExecAll(w, OpCode(isa, o, p).0, n), Effect(w, o, s))
  }

  ghost predicate Agree(p: Pend, n: Option<NState>, s: Option<XState>) {
    if n.Some? then s.Some? && Refines(p, n.value, s.value) else s.None?
  }

  // ----- building blocks -----

  /** A pop on the lazy machine is a pop on the eager one. */
  lemma Popped(w: World, p: Pend, r: Reg, n: NState, s: XState) returns (t: NState)
    requires Refines(p, n, s) && s.stack != []
    ensures Closed(OpPop(p, r).0) && ExecAll(w, OpPop(p, r).0, n) == Some(t)
    ensures Native.Get(t.regs, r) == s.stack[|s.stack| - 1] && 0 <= s.stack[|s.stack| - 1] < TWO64
    ensures forall q :: q != r ==> Native.Get(t.regs, q) == Native.Get(n.regs, q)
    ensures Refines(None, t, s.(stack := s.stack[..|s.stack| - 1]))
  {
    PopGives(p, r);
    t := ExecAll(w, OpPop(p, r).0, n).value;
    assert t.stack + [] == t.stack;
  }

  lemma PoppedNone(w: World, p: Pend, r: Reg, n: NState, s: XState)
    requires Refines(p, n, s) && s.stack == []
    ensures Closed(OpPop(p, r).0) && ExecAll(w, OpPop(p, r).0, n) == None
  {
    PopGives(p, r);
  }

  /** A result left in a register is the new top of the eager stack. */
  lemma Pushed(r: Reg, t: NState, u: NState, s: XState, v: int)
    requires Refines(None, t, s) && u.stack == t.stack && u.locals == t.locals && u.mem == t.mem && u.saved == t.saved
    requires Native.Get(u.regs, r) == v && 0 <= v < TWO64
    ensures Refines(Some(r), u, s.(stack := s.stack + [v]))
  {
    assert t.stack + [] == t.stack;
  }

  /** A pop, then something that starts with the value in the register. */
  lemma PopThen(w: World, p: Pend, r: Reg, os: seq<Asm>, n: NState, s: XState) returns (t: NState)
    requires Refines(p, n, s) && Closed(os)
    ensures Closed(OpPop(p, r).0 + os)
    ensures s.stack == [] ==> ExecAll(w, OpPop(p, r).0 + os, n) == None
    ensures s.stack != [] ==>
      && ExecAll(w, OpPop(p, r).0 + os, n) == ExecAll(w, os, t)
      && Native.Get(t.regs, r) == s.stack[|s.stack| - 1] && 0 <= s.stack[|s.stack| - 1] < TWO64
      && (forall q :: q != r ==> Native.Get(t.regs, q) == Native.Get(n.regs, q))
      && Refines(None, t, s.(stack := s.stack[..|s.stack| - 1]))
  {
    hide OpPop, Refines, Exec1, ExecAll, Closed;
    t := n;
    if s.stack == [] {
      PoppedNone(w, p, r, n, s);
    } else {
      t := Popped(w, p, r, n, s);
    }
    ExecAppend(w, OpPop(p, r).0, os, n);
  }

  /** A flush, then something that starts with the stack in memory. */
  lemma FlushThen(w: World, p: Pend, os: seq<Asm>, n: NState, s: XState) returns (t: NState)
    requires Refines(p, n, s) && Closed(os)
    ensures Closed(Flush(p) + os) && ExecAll(w, Flush(p) + os, n) == ExecAll(w, os, t)
    ensures Refines(None, t, s) && t == n.(stack := s.stack)
  {
    hide Flush, Exec1, ExecAll, Closed;
    FlushKeeps(p);
    t := n.(stack := s.stack);
    assert t.stack + [] == t.stack;
    FlushUse(w, p, n);
    ExecAppend(w, Flush(p), os, n);
  }

  lemma FlushUse(w: World, p: Pend, n: NState)
    ensures Closed(Flush(p)) && ExecAll(w, Flush(p), n) == Some(n.(stack := All(p, n)))
  {
    FlushKeeps(p);
  }

  // ----- constants and locals -----

  lemma ConstLoads(w: World, v: int, n: NState)
    requires InWord(v)
    ensures Closed([LoadConst(v)]) && ExecAll(w, [LoadConst(v)], n).Some?
    ensures var t := ExecAll(w, [LoadConst(v)], n).value;
      t == n.(regs := Put(n.regs, RAX, ConstVal(v)), flags := t.flags)
  {
    ExecOne(w, LoadConst(v), n);
    if -0x8000_0000 <= v < 0 {
      assert v % TWO32 == v + TWO32;
    }
  }

  lemma PushesConst(w: World, i: Inst, v: int, p: Pend, n: NState, s: XState)
    requires (i == ConstI64(v)) || (i.ConstBool? && v == FromBool(i.arg != 0))
    requires Refines(p, n, s) && InWord(v)
    ensures InStep(X64, w, Basic(i), p, n, s)
  {
    hide Refines, ExecAll, Closed, LoadConst;
    ConstLoads(w, v, n);
    var t := FlushThen(w, p, [LoadConst(v)], n, s);
    ConstLoads(w, v, t);
    Pushed(RAX, t, ExecAll(w, [LoadConst(v)], t).value, s, ConstVal(v));
  }

  lemma PushesLocal(w: World, k: int, p: Pend, n: NState, s: XState)
    requires Refines(p, n, s)
    ensures InStep(X64, w, Basic(LocalGet(k)), p, n, s)
  {
    hide ExecAll, Closed;
    ExecOne(w, LoadLocal(RAX, k), n);
    var t := FlushThen(w, p, [LoadLocal(RAX, k)], n, s);
    ExecOne(w, LoadLocal(RAX, k), t);
    if CanRun(LocalGet(k), Core(s)) {
      Pushed(RAX, t, Exec1(w, LoadLocal(RAX, k), t).value, s, s.locals[k]);
    }
  }

  lemma PopsToLocal(w: World, k: int, p: Pend, n: NState, s: XState)
    requires Refines(p, n, s)
    ensures InStep(X64, w, Basic(LocalSet(k)), p, n, s)
  {
    hide OpPop, ExecAll, Exec1, Refines, Apply, Closed;
    ExecOne(w, StoreLocal(k, RAX), n);
    var t := PopThen(w, p, RAX, [StoreLocal(k, RAX)], n, s);
    if s.stack != [] {
      ExecOne(w, StoreLocal(k, RAX), t);
      LocalStored(w, k, t, s, s.stack[|s.stack| - 1]);
    }
  }

  lemma LocalStored(w: World, k: int, t: NState, s: XState, v: int)
    requires s.stack != [] && v == s.stack[|s.stack| - 1] && 0 <= v < TWO64 && t.regs.rax == v
    requires Refines(None, t, s.(stack := s.stack[..|s.stack| - 1]))
    ensures Agree(None, Exec1(w, StoreLocal(k, RAX), t), Effect(w, Basic(LocalSet(k)), s))
  {
    assert v % TWO64 == v;
  }

  lemma DropsTop(w: World, p: Pend, n: NState, s: XState)
    requires Refines(p, n, s)
    ensures InStep(X64, w, Basic(Drop), p, n, s)
  {
    hide ExecAll, Closed;
    DropRemoves(p);
    assert Dropped(p, n, ExecAll(w, OpDrop(p).0, n));
    if s.stack != [] {
      var t := s.stack[..|s.stack| - 1];
      assert t + [] == t;
    }
  }

  lemma Dups(w: World, p: Pend, n: NState, s: XState)
    requires Refines(p, n, s)
    ensures InStep(X64, w, Basic(Dup), p, n, s)
  {
    hide ExecAll, Closed, OpLoad;
    LoadGives(p, RAX);
    assert ExecAll(w, OpLoad(p, RAX).0, n) == Seen(All(p, n), RAX, n);
  }

  // ----- arithmetic -----

  lemma UnaryRefines(w: World, i: Inst, o: Asm, p: Pend, n: NState, s: XState)
    requires (i.Neg? && o == NegR(RAX)) || (i.Not? && o == FlipLow(RAX))
    requires Refines(p, n, s)
    ensures InStep(X64, w, Basic(i), p, n, s)
  {
    hide OpPop, ExecAll, Exec1, Refines, NegVal, NotVal, Closed;
    ExecOne(w, o, n);
    var t := PopThen(w, p, RAX, [o], n, s);
    if s.stack != [] {
      var a, below := s.stack[|s.stack| - 1], s.(stack := s.stack[..|s.stack| - 1]);
      ExecOne(w, o, t);
      UnaryValue(w, i, o, t, below, a, if i.Neg? then NegVal(Native64, a) else NotVal(Native64, a));
    }
  }

  lemma UnaryValue(w: World, i: Inst, o: Asm, t: NState, below: XState, a: int, v: int)
    requires (i.Neg? && o == NegR(RAX) && v == NegVal(Native64, a)) || (i.Not? && o == FlipLow(RAX) && v == NotVal(Native64, a))
    requires Refines(None, t, below) && t.regs.rax == a && 0 <= a < TWO64
    ensures Exec1(w, o, t).Some? && Refines(Some(RAX), Exec1(w, o, t).value, below.(stack := below.stack + [v]))
  {
    Pushed(RAX, t, Exec1(w, o, t).value, below, v);
  }

  /** After both pops: the result is in RCX, nothing else has changed but the flags. */
  lemma BinSets(w: World, op: BinOp, n: NState)
    ensures Closed(BinCode(op)) && ExecAll(w, BinCode(op), n).Some?
    ensures var t := ExecAll(w, BinCode(op), n).value;
      t == n.(regs := Put(n.regs, RCX, BinVal(Native64, op, n.regs.rcx, n.regs.rax)), flags := t.flags)
  {
    hide Signed;
    if op.Add? || op.Sub? || op.Mul? {
      ExecOne(w, Arith(op, RCX, RAX), n);
    } else {
      var t := n.(flags := Compared(SignedWord(n.regs.rcx), SignedWord(n.regs.rax)));
      TwoOps(w, Cmp(RCX, RAX), SetCC(CondOf(op), RCX), n, t);
    }
  }

  lemma BinInWord(op: BinOp, c: int, a: int)
    ensures 0 <= BinVal(Native64, op, c, a) < TWO64
  {
    hide Signed;
  }

  lemma BinRefines(w: World, op: BinOp, p: Pend, n: NState, s: XState)
    requires Refines(p, n, s)
    ensures InStep(X64, w, Basic(Bin(op)), p, n, s)
  {
    hide BinVal, BinCode, OpPop, Refines, ExecAll, Closed;
    var b, c := OpPop(None, RCX).0, BinCode(op);
    BinSets(w, op, n);
    PopGives(None, RCX);
    ClosedAppend(b, c);
    var t := PopThen(w, p, RAX, b + c, n, s);
    if s.stack != [] {
      var k := |s.stack| - 1;
      var below := s.(stack := s.stack[..k]);
      var u := PopThen(w, None, RCX, c, t, below);
      if k > 0 {
        BinSets(w, op, u);
        BinInWord(op, s.stack[k - 1], s.stack[k]);
        assert below.stack[..k - 1] == s.stack[..k - 1];
        Pushed(RCX, u, ExecAll(w, c, u).value, below.(stack := s.stack[..k - 1]), BinVal(Native64, op, s.stack[k - 1], s.stack[k]));
      }
    }
  }

  // ----- memory -----

  /** The guarded load jumps over itself when the base is nil. */
  lemma GuardedGives(w: World, d: Reg, b: Reg, at: int, k: nat, s: NState)
    requires 0 <= Native.Get(s.regs, b) < TWO64
    ensures Closed(GuardedLoad(d, b, at, k))
    ensures var v, t := Guarded(s.mem, Native.Get(s.regs, b), at, k), ExecAll(w, GuardedLoad(d, b, at, k), s);
      match t
      case None => v.None?
      case Some(t) => v.Some? && t == SetReg(s, d, v.value).(flags := t.flags)
  {
    hide Peek, ExecAll, Exec1, SetReg;
    GuardedClosed(d, b, at, k);
    var a := Native.Get(s.regs, b);
    var t := s.(flags := Compared(SignedWord(a), 0));
    GuardedTest(w, d, b, at, k, s, t);
    if a == 0 {
      GuardedNil(w, d, LoadMem(d, b, at, k), t);
      SetFlags(s, t.flags, d, 0);
    } else {
      GuardedLive(w, d, b, at, k, t);
      LoadsOne(w, d, b, at, k, t);
      var v := Read(s.mem, Wrapped(a + at), k);
      if v.Some? {
        SetFlags(s, t.flags, d, v.value);
      }
    }
  }

  lemma GuardedTest(w: World, d: Reg, b: Reg, at: int, k: nat, s: NState, t: NState)
    requires t == s.(flags := Compared(SignedWord(Native.Get(s.regs, b)), 0))
    ensures ExecAll(w, GuardedLoad(d, b, at, k), s)
         == ExecAll(w, [SkipIf(CondNE, 2), Native.Zero(d), Skip(1), LoadMem(d, b, at, k)], t)
  {
    hide SignedWord;
    var os := GuardedLoad(d, b, at, k);
    assert os[1..] == [SkipIf(CondNE, 2), Native.Zero(d), Skip(1), LoadMem(d, b, at, k)];
  }

  /** The base is nil: 0, and past the access. */
  lemma GuardedNil(w: World, d: Reg, load: Asm, t: NState)
    requires t.flags == Compared(0, 0)
    ensures ExecAll(w, [SkipIf(CondNE, 2), Native.Zero(d), Skip(1), load], t) == Some(SetReg(t, d, 0).(flags := Unknown))
  {
    var u := SetReg(t, d, 0).(flags := Unknown);
    var os, z := [SkipIf(CondNE, 2), Native.Zero(d), Skip(1), load], [Native.Zero(d), Skip(1), load];
    assert os[1..] == z && z[1..] == [Skip(1), load] && z[1..][2..] == [];
    assert ExecAll(w, z[1..], u) == Some(u);
    assert ExecAll(w, z, t) == Some(u);
  }

  lemma SetFlags(s: NState, f: Native.Flags, d: Reg, v: int)
    ensures SetReg(s.(flags := f), d, v) == SetReg(s, d, v).(flags := f)
  {
  }

  /** The base is an address: only the access. */
  lemma GuardedLive(w: World, d: Reg, b: Reg, at: int, k: nat, t: NState)
    requires t.flags == Compared(SignedWord(Native.Get(t.regs, b)), 0) && 0 < Native.Get(t.regs, b) < TWO64
    ensures ExecAll(w, [SkipIf(CondNE, 2), Native.Zero(d), Skip(1), LoadMem(d, b, at, k)], t)
         == Exec1(w, LoadMem(d, b, at, k), t)
  {
    var load := LoadMem(d, b, at, k);
    var os := [SkipIf(CondNE, 2), Native.Zero(d), Skip(1), load];
    assert SignedWord(Native.Get(t.regs, b)) != 0;
    assert os[3..] == [load];
    ExecOne(w, load, t);
  }

  lemma LoadsOne(w: World, d: Reg, b: Reg, at: int, k: nat, t: NState)
    ensures var v, u := Read(t.mem, Wrapped(Native.Get(t.regs, b) + at), k), Exec1(w, LoadMem(d, b, at, k), t);
      match u
      case None => v.None?
      case Some(u) => v.Some? && u == SetReg(t, d, v.value).(flags := u.flags)
  {
    hide Peek;
  }

  /** The value that a unary instruction computes from the top of the stack. */
  lemma Answers(t: NState, u: Option<NState>, s: XState, v: Option<int>)
    requires s.stack != [] && Refines(None, t, s.(stack := s.stack[..|s.stack| - 1]))
    requires v.Some? ==> 0 <= v.value < TWO64
    requires match u case None => v.None? case Some(u) => v.Some? && u == SetReg(t, RAX, v.value).(flags := u.flags)
    ensures Agree(Some(RAX), u, Replaced(s, v))
  {
    if v.Some? {
      Pushed(RAX, t, u.value, s.(stack := s.stack[..|s.stack| - 1]), v.value);
    }
  }

  lemma GuardedFits(mem: Mem, a: int, at: int, k: nat)
    requires k == 1 || k == WORD
    ensures Guarded(mem, a, at, k).Some? ==> 0 <= Guarded(mem, a, at, k).value < TWO64
  {
    PeekFits(mem, Wrapped(a + at), k);
  }

  /** The load templates: pop the pointer into q, load through it. */
  lemma LoadsThrough(w: World, q: Reg, at: int, k: nat, p: Pend, n: NState, s: XState)
    requires Refines(p, n, s) && (k == 1 || k == WORD) && (q == RCX || q == RAX)
    ensures Closed(OpPop(p, q).0 + GuardedLoad(RAX, q, at, k))
    ensures Agree(Some(RAX), ExecAll(w, OpPop(p, q).0 + GuardedLoad(RAX, q, at, k), n),
                  if s.stack == [] then None else Replaced(s, Guarded(s.mem, s.stack[|s.stack| - 1], at, k)))
  {
    hide OpPop, ExecAll, Exec1, Closed, GuardedLoad, Guarded, Peek;
    GuardedClosed(RAX, q, at, k);
    var t := PopThen(w, p, q, GuardedLoad(RAX, q, at, k), n, s);
    if s.stack != [] {
      var a := s.stack[|s.stack| - 1];
      GuardedGives(w, RAX, q, at, k, t);
      GuardedFits(s.mem, a, at, k);
      Answers(t, ExecAll(w, GuardedLoad(RAX, q, at, k), t), s, Guarded(s.mem, a, at, k));
    }
  }

  lemma GuardedClosed(d: Reg, b: Reg, at: int, k: nat)
    ensures Closed(GuardedLoad(d, b, at, k))
  {
  }

  lemma StoreRefines(w: World, size: int, p: Pend, n: NState, s: XState)
    requires Refines(p, n, s)
    ensures InStep(X64, w, Store(size), p, n, s)
  {
    hide OpPop, ExecAll, Closed, Poke, Refines, Exec1;
    var o := StoreMem(RCX, RAX, Width(size));
    var b := OpPop(None, RAX).0;
    ExecOne(w, o, n);
    PopGives(None, RAX);
    ClosedAppend(b, [o]);
    var t := PopThen(w, p, RCX, b + [o], n, s);
    if s.stack != [] {
      var k := |s.stack| - 1;
      var below := s.(stack := s.stack[..k]);
      var u := PopThen(w, None, RAX, [o], t, below);
      if k > 0 {
        ExecOne(w, o, u);
        assert below.stack[..k - 1] == s.stack[..k - 1];
        assert Native.Get(u.regs, RCX) == s.stack[k];
        MemStored(w, o, u, s, s.stack[..k - 1], Width(size), s.stack[k], s.stack[k - 1], s.stack[k]);
      }
    }
  }

  /** The store at the end of a template. */
  lemma MemStored(w: World, o: Asm, u: NState, s: XState, st: seq<int>, k: nat, a: int, v: int, base: int)
    requires o == StoreMem(RCX, RAX, k) && u.regs.rcx == base && u.regs.rax == v && W(base) == Wrapped(a)
    requires Refines(None, u, s.(stack := st))
    ensures Agree(None, Exec1(w, o, u),
              match Written(s.mem, Wrapped(a), v, k) case None => None case Some(m) => Some(s.(stack := st, mem := m)))
  {
    hide Poke;
  }

  lemma GlobalGets(w: World, k: int, p: Pend, n: NState, s: XState)
    requires Refines(p, n, s)
    ensures InStep(X64, w, GlobalGet(k), p, n, s)
  {
    hide ExecAll, Closed, Flush, Peek;
    var x, y := GlobalAddr(RCX, k), LoadMem(RAX, RCX, 0, WORD);
    TwoOps(w, x, y, n, Exec1(w, x, n).value);
    var t := FlushThen(w, p, [x, y], n, s);
    var u := Exec1(w, x, t).value;
    TwoOps(w, x, y, t, u);
    var a := Wrapped(w.globals + 8 * k);
    PeekFits(s.mem, a, WORD);
    assert W(a + 0) == a;
    if a != 0 {
      Pushed(RAX, t, Exec1(w, y, u).value, s, Peek(s.mem, a, WORD));
    }
  }

  lemma GlobalSets(w: World, k: int, p: Pend, n: NState, s: XState)
    requires Refines(p, n, s)
    ensures InStep(X64, w, GlobalSet(k), p, n, s)
  {
    hide OpPop, ExecAll, Closed, Poke, Refines;
    var x, y := GlobalAddr(RCX, k), StoreMem(RCX, RAX, WORD);
    TwoOps(w, x, y, n, Exec1(w, x, n).value);
    var t := PopThen(w, p, RAX, [x, y], n, s);
    if s.stack != [] {
      var u := Exec1(w, x, t).value;
      TwoOps(w, x, y, t, u);
      var st := s.stack[..|s.stack| - 1];
      assert Refines(None, u, s.(stack := st)) by { RegsFree(t, u, s.(stack := st)); }
      MemStored(w, y, u, s, st, WORD, w.globals + 8 * k, s.stack[|s.stack| - 1], Wrapped(w.globals + 8 * k));
    }
  }

  lemma RegsFree(t: NState, u: NState, s: XState)
    requires Refines(None, t, s) && u == t.(regs := u.regs, flags := u.flags)
    ensures Refines(None, u, s)
  {
  }

  lemma Offsets(w: World, k: int, p: Pend, n: NState, s: XState)
    requires Refines(p, n, s)
    ensures InStep(X64, w, Offset(k), p, n, s)
  {
    hide OpPop, ExecAll, Closed, Refines;
    var os := if k == 0 then [] else [AddImm(RAX, k)];
    OffsetCode(w, k, os, n);
    var t := PopThen(w, p, RAX, os, n, s);
    if s.stack != [] {
      OffsetCode(w, k, os, t);
      var v := Wrapped(s.stack[|s.stack| - 1] + k);
      assert Put(t.regs, RAX, t.regs.rax) == t.regs;
      Answers(t, ExecAll(w, os, t), s, Some(v));
    }
  }

  lemma OffsetCode(w: World, k: int, os: seq<Asm>, t: NState)
    requires os == if k == 0 then [] else [AddImm(RAX, k)]
    ensures Closed(os) && ExecAll(w, os, t) == if k == 0 then Some(t) else Exec1(w, AddImm(RAX, k), t)
  {
    if k != 0 {
      ExecOne(w, AddImm(RAX, k), t);
    }
  }

  // ----- calls -----

  lemma CallRefines(w: World, f: string, k: nat, p: Pend, n: NState, s: XState)
    requires Refines(p, n, s)
    ensures InStep(X64, w, Invoke(f, k), p, n, s)
  {
    hide ExecAll, Closed, Flush;
    ExecOne(w, CallTo(f, k), n);
    var t := FlushThen(w, p, [CallTo(f, k)], n, s);
    ExecOne(w, CallTo(f, k), t);
    CallAgrees(w, f, k, t, s);
  }

  lemma CallAgrees(w: World, f: string, k: nat, t: NState, s: XState)
    requires t.stack == s.stack && t.mem == s.mem && t.locals == s.locals && t.saved == []
    requires AreWords(s.stack) && AreWords(s.locals)
    ensures Agree(None, AfterCall(w, f, k, t), Called(w, f, k, s))
  {
    if AfterCall(w, f, k, t).Some? {
      var u := AfterCall(w, f, k, t).value;
      assert u.stack + [] == u.stack;
    }
  }
}
