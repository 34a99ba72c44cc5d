/** The native code generator object: it appends to its code and remembers which register
    still has to be pushed. Every method is proved against the functions of `Pending`; the
    stack operations also say what their code does. */
module CodeGen {
  import opened Ir
  import opened Eager
  import opened Native
  import opened Pending

  class CodeGen {
    const isa: Isa
    var code: seq<Asm>
    var hasPending: bool
    var pendingReg: Reg

    constructor (isa: Isa)
      ensures this.isa == isa && code == [] && !hasPending
    {
      this.isa := isa;
      code, hasPending, pendingReg := [], false, RAX;
    }

    function Waits(): Pend
      reads this
    {
      if hasPending then Some(pendingReg) else None
    }

    method Emit(i: Asm)
      modifies `code
      ensures code == old(code) + [i]
    {
      code := code + [i];
    }

    method RawPush(r: Reg)
      modifies `code
      ensures code == old(code) + Pending.RawPush(r)
    {
      Emit(Grow);
      Emit(StoreTop(r));
    }

    method RawPop(r: Reg)
      modifies `code
      ensures code == old(code) + Pending.RawPop(r)
    {
      Emit(LoadTop(r));
      Emit(Shrink);
    }

    /** What was emitted since, after which nothing is pending, moves the pending value to
        memory and changes nothing else. */
    method FlushPending()
      modifies this
      ensures code == old(code) + Flush(old(Waits())) && !hasPending && pendingReg == old(pendingReg)
      ensures Flushes(code[|old(code)|..], old(Waits()))
    {
      FlushKeeps(Waits());
      if !hasPending {
        return;
      }
      hasPending := false;
      RawPush(pendingReg);
    }

    /** Now r is pending; an older pending value was moved to memory, not lost. */
    method OpPush(r: Reg)
      modifies this
      ensures code == old(code) + Pending.OpPush(old(Waits()), r).0 && Waits() == Some(r)
      ensures Flushes(code[|old(code)|..], old(Waits()))
    {
      FlushPending();
      hasPending := true;
      pendingReg := r;
    }

    /** The code takes the top of memory stack plus pending register into r. */
    method OpPop(r: Reg)
      modifies this
      ensures code == old(code) + Pending.OpPop(old(Waits()), r).0 && Waits() == None
      ensures Pending.Pops(code[|old(code)|..], old(Waits()), r)
    {
      PopGives(Waits(), r);
      if hasPending {
        hasPending := false;
        if r != pendingReg {
          Emit(MovRR(r, pendingReg));
        }
        return;
      }
      RawPop(r);
    }

    /** The code reads that top into r and leaves everything in memory. */
    method OpLoad(r: Reg)
      modifies this
      ensures code == old(code) + Pending.OpLoad(old(Waits()), r).0 && Waits() == None
      ensures Loads(code[|old(code)|..], old(Waits()), r)
    {
      LoadGives(Waits(), r);
      if hasPending {
        if r != pendingReg {
          Emit(MovRR(r, pendingReg));
        }
        FlushPending();
        return;
      }
      Emit(LoadTop(r));
    }

    /** The code puts r in the place of that top. */
    method OpStore(r: Reg)
      modifies this
      ensures code == old(code) + Pending.OpStore(old(Waits()), r).0 && Waits() == None
      ensures Stores(code[|old(code)|..], old(Waits()), r)
    {
      StoreReplaces(Waits(), r);
      FlushPending();
      Emit(StoreTop(r));
    }

    /** The code removes that top. */
    method OpDrop()
      modifies this
      ensures code == old(code) + Pending.OpDrop(old(Waits())).0 && Waits() == None
      ensures Drops(code[|old(code)|..], old(Waits()))
    {
      DropRemoves(Waits());
      if hasPending {
        hasPending := false;
        return;
      }
      Emit(AddSlot);
    }

    /** A jump to a label may not leave a push behind. */
    method EmitJump(i: Asm)
      modifies this
      ensures code == old(code) + Flush(old(Waits())) + [i] && Waits() == None
    {
      FlushPending();
      Emit(i);
    }

    /** A jump whose target is patched later; the ARM64 emitter does not flush here. */
    method EmitBranch(i: Asm) returns (at: nat)
      modifies this
      ensures code == old(code) + Branch(isa, old(Waits())).0 + [i] && Waits() == Branch(isa, old(Waits())).1
      ensures at == |code| - 1
    {
      if isa.X64? {
        FlushPending();
      }
      at := |code|;
      Emit(i);
    }

    /** Make the jump at this position go to the target. */
    method Patch(at: nat, target: nat)
      requires at < |code| && IsSkip(code[at]) && at < target
      modifies `code
      ensures code == old(code)[at := Aimed(old(code)[at], target - at - 1)]
    {
      code := code[at := Aimed(code[at], target - at - 1)];
    }

    method EmitCall(f: string, n: nat)
      modifies this
      ensures code == old(code) + CallCode(f, n, old(Waits())).0 && Waits() == None
    {
      FlushPending();
      Emit(CallTo(f, n));
    }

    method CompileConst(v: int)
      modifies this
      ensures code == old(code) + (Flush(old(Waits())) + [LoadConst(v)]) && Waits() == Some(RAX)
    {
      FlushPending();
      if v == 0 {
        Emit(Zero(RAX));
      } else if 0 < v <= 0x7fff_ffff {
        Emit(MovZero32(RAX, v));
      } else if -0x8000_0000 <= v < 0 {
        Emit(MovSign32(RAX, v));
      } else {
        Emit(MovImm64(RAX, v));
      }
      OpPush(RAX);
    }

    /** The second operand is on top; the result ends in RCX. */
    method CompileBinary(op: BinOp)
      modifies this
      ensures code == old(code) + InstCode(Bin(op), old(Waits())).0 && Waits() == Some(RCX)
    {
      hide BinCode, Pending.Pops;
      OpPop(RAX);
      OpPop(RCX);
      EmitBinary(op);
      assert code == old(code) + InstCode(Bin(op), old(Waits())).0;
      OpPush(RCX);
    }

    method EmitBinary(op: BinOp)
      modifies this
      ensures code == old(code) + BinCode(op) && Waits() == old(Waits())
    {
      match op {
        case Add => Emit(Arith(op, RCX, RAX));
        case Sub => Emit(Arith(op, RCX, RAX));
        case Mul => Emit(Arith(op, RCX, RAX));
        case _ =>
          Emit(Cmp(RCX, RAX));
          Emit(SetCC(CondOf(op), RCX));
      }
    }

    method CompileInst(i: Inst)
      modifies this
      ensures code == old(code) + InstCode(i, old(Waits())).0 && Waits() == InstCode(i, old(Waits())).1
    {
      hide Flushes, Pending.Pops, Loads, Drops, LoadConst;
      match i
      case ConstI64(v) => CompileConst(v);
      case ConstBool(arg) => CompileConst(if arg != 0 then 1 else 0);
      case LocalGet(k) => CompileLocalGet(k);
      case LocalSet(k) => CompileLocalSet(k);
      case Drop => OpDrop();
      case Dup =>
        OpLoad(RAX);
        OpPush(RAX);
      case Bin(op) => CompileBinary(op);
      case Neg => CompileUnary(i);
      case Not => CompileUnary(i);
      case Label(l) =>
        FlushPending();
        Emit(Lbl(l));
      case Jmp(l) => CompileJmp(l);
      case JmpIf(l) => CompileBranch(i, CondNE);
      case JmpIfNot(l) => CompileBranch(i, CondE);
      case Return(_) => CompileReturn(i);
    }

    method CompileLocalGet(k: int)
      modifies this
      ensures code == old(code) + InstCode(LocalGet(k), old(Waits())).0 && Waits() == Some(RAX)
    {
      hide Flushes;
      FlushPending();
      Emit(LoadLocal(RAX, k));
      OpPush(RAX);
    }

    method CompileLocalSet(k: int)
      modifies this
      ensures code == old(code) + InstCode(LocalSet(k), old(Waits())).0 && Waits() == None
    {
      hide Pending.Pops;
      OpPop(RAX);
      Emit(StoreLocal(k, RAX));
    }

    method CompileUnary(i: Inst)
      requires i.Neg? || i.Not?
      modifies this
      ensures code == old(code) + InstCode(i, old(Waits())).0 && Waits() == Some(RAX)
    {
      hide Pending.Pops;
      OpPop(RAX);
      Emit(if i.Neg? then NegR(RAX) else FlipLow(RAX));
      OpPush(RAX);
    }

    method CompileJmp(l: int)
      modifies this
      ensures code == old(code) + InstCode(Jmp(l), old(Waits())).0 && Waits() == None
    {
      hide Flushes;
      FlushPending();
      EmitJump(JmpTo(l));
    }

    method CompileBranch(i: Inst, c: Cond)
      requires (i.JmpIf? && c == CondNE) || (i.JmpIfNot? && c == CondE)
      modifies this
      ensures code == old(code) + InstCode(i, old(Waits())).0 && Waits() == None
    {
      hide Pending.Pops;
      OpPop(RAX);
      Emit(TestR(RAX));
      EmitJump(Jcc(c, i.l));
    }

    method CompileReturn(i: Inst)
      requires i.Return?
      modifies this
      ensures code == old(code) + InstCode(i, old(Waits())).0 && Waits() == None
    {
      hide Flushes;
      FlushPending();
      Emit(Leave);
    }

    /** Pop a pointer into r, load what it points to. */
    method CompileLoad(r: Reg, disp: int, n: nat)
      modifies this
      ensures code == old(code) + (Pending.OpPop(old(Waits()), r).0 + GuardedLoad(RAX, r, disp, n)) && Waits() == Some(RAX)
    {
      OpPop(r);
      Emit(TestR(r));
      Emit(SkipIf(CondNE, 2));
      Emit(Native.Zero(RAX));
      Emit(Skip(1));
      Emit(LoadMem(RAX, r, disp, n));
      assert code == old(code) + (Pending.OpPop(old(Waits()), r).0 + GuardedLoad(RAX, r, disp, n));
      OpPush(RAX);
    }

    method CompileOp(o: Op)
      modifies this
      ensures code == old(code) + OpCode(isa, o, old(Waits())).0 && Waits() == OpCode(isa, o, old(Waits())).1
    {
      hide InstCode, IfaceCode;
      match o
      case Basic(i) => CompileInst(i);
      case Load(size) => CompileLoad(RCX, 0, Width(size));
      case Store(size) =>
        OpPop(RCX);
        OpPop(RAX);
        Emit(StoreMem(RCX, RAX, Width(size)));
      case GlobalGet(k) =>
        FlushPending();
        Emit(GlobalAddr(RCX, k));
        Emit(LoadMem(RAX, RCX, 0, WORD));
        OpPush(RAX);
      case GlobalSet(k) =>
        OpPop(RAX);
        Emit(GlobalAddr(RCX, k));
        Emit(StoreMem(RCX, RAX, WORD));
      case Offset(k) =>
        OpPop(RAX);
        if k != 0 {
          Emit(AddImm(RAX, k));
        }
        OpPush(RAX);
      case Len => CompileLoad(RAX, 8, WORD);
      case Cap => CompileLoad(RAX, 16, WORD);
      case Invoke(f, n) => EmitCall(f, n);
      case IfaceCall(es, n) => CompileIfaceCall(es, n);
    }

    // ----- interface calls -----

    method SaveArgs(n: nat)
      modifies this
      ensures code == old(code) + SaveCode(n, old(Waits())).0 && Waits() == SaveCode(n, old(Waits())).1
    {
      hide Pending.OpPop;
      ghost var all := SaveCode(n, Waits());
      for i := 0 to n
        invariant code + SaveCode(n - i, Waits()).0 == old(code) + all.0 && SaveCode(n - i, Waits()).1 == all.1
      {
        ghost var p, was := Waits(), code;
        OpPop(RAX);
        Emit(PushSaved(RAX));
        assert code + SaveCode(n - i - 1, None).0 == was + SaveCode(n - i, p).0;
      }
      assert code + [] == code;
    }

    method RestoreArgs(n: nat)
      modifies this
      ensures code == old(code) + RestoreCode(n, old(Waits())).0 && Waits() == RestoreCode(n, old(Waits())).1
    {
      hide Flush;
      ghost var all := RestoreCode(n, Waits());
      for i := 0 to n
        invariant code + RestoreCode(n - i, Waits()).0 == old(code) + all.0 && RestoreCode(n - i, Waits()).1 == all.1
      {
        ghost var p, was := Waits(), code;
        FlushPending();
        Emit(PopSaved(RAX));
        OpPush(RAX);
        assert Pending.OpPush(None, RAX).0 == [] by { NoFlush(); }
        assert code + RestoreCode(n - i - 1, Some(RAX)).0 == was + RestoreCode(n - i, p).0;
      }
      assert code + [] == code;
    }

    /** One arm: compare, jump over the call, call, jump to the end (still to be patched). */
    method EmitArm(e: Impl, n: nat) returns (end: nat)
      modifies this
      ensures code == old(code) + Arm(isa, e, n, old(Waits()), 0) && Waits() == None
      ensures end == |code| - 1
    {
      hide Flush;
      ghost var b := Branch(isa, Waits());
      ghost var c := CallCode(e.f, n + 1, b.1).0;
      Emit(CmpImm(RCX, e.id));
      var next := EmitBranch(SkipIf(CondNE, 0));
      EmitCall(e.f, n + 1);
      assert Branch(isa, None).0 == [] && Branch(isa, None).1 == None by { NoFlush(); }
      end := EmitBranch(Skip(0));
      ghost var start := old(code) + [CmpImm(RCX, e.id)] + b.0;
      assert code == start + [SkipIf(CondNE, 0)] + (c + [Skip(0)]) && next == |start|;
      Patch(next, |code|);
      assert code == start + [SkipIf(CondNE, |c| + 1)] + (c + [Skip(0)]);
    }

    /** All arms; where their last jumps stand. */
    method EmitArms(es: seq<Impl>, n: nat) returns (endFixups: seq<nat>)
      modifies this
      ensures code == old(code) + Arms(isa, es, n, old(Waits())) && Waits() == PendAfter(es, old(Waits()))
      ensures endFixups == Shifted(Ends(isa, es, n, old(Waits())), |old(code)|)
    {
      hide Arm, Arms, Ends;
      ghost var start, p := code, Waits();
      endFixups := [];
      NoArms(isa, n, p);
      assert es[..0] == [] && start + [] == start;
      for i := 0 to |es|
        invariant code == start + Arms(isa, es[..i], n, p) && Waits() == PendAfter(es[..i], p)
        invariant endFixups == Shifted(Ends(isa, es[..i], n, p), |start|)
      {
        ArmsSnoc(isa, es[..i], es[i], n, p);
        assert es[..i + 1] == es[..i] + [es[i]];
        var end := EmitArm(es[i], n);
        ShiftSnoc(Ends(isa, es[..i], n, p), |Arms(isa, es[..i + 1], n, p)| - 1, |start|);
        endFixups := endFixups + [end];
      }
      assert es[..|es|] == es;
    }

    /** Every arm's last jump goes to the end of the code. */
    method PatchEnds(endFixups: seq<nat>, ghost start: seq<Asm>, ghost open: seq<Asm>, ghost ends: seq<nat>)
      requires code == start + open && endFixups == Shifted(ends, |start|)
      requires forall i :: 0 <= i < |ends| ==> ends[i] < |open| - 1 && open[ends[i]].Skip?
      modifies `code
      ensures |code| == |start| + |open| && code[..|start|] == start
      ensures forall q :: 0 <= q < |open| ==> code[|start| + q] == Half(open, ends, q)
    {
      var endAddr := |code|;
      for j := 0 to |endFixups|
        invariant |code| == endAddr == |start| + |open| && code[..|start|] == start
        invariant forall q :: 0 <= q < |open| ==> code[|start| + q] == Half(open, ends[..j], q)
      {
        ghost var was, patched := code, ends[..j + 1];
        HalfStep(open, ends, j);
        assert was[|start| + ends[j]] == Half(open, ends[..j], ends[j]);
        Patch(endFixups[j], endAddr);
        forall q | 0 <= q < |open|
          ensures code[|start| + q] == Half(open, patched, q)
        {
          assert was[|start| + q] == Half(open, ends[..j], q);
        }
      }
      assert ends[..|endFixups|] == ends;
    }

    /** The chain of comparisons: every arm's last jump is patched once the end is known. */
    method EmitChain(es: seq<Impl>, n: nat)
      modifies this
      ensures code == old(code) + Chain(isa, es, n, old(Waits())).0 && Waits() == Chain(isa, es, n, old(Waits())).1
    {
      hide Arm, Arms, Ends, Chain, Flush;
      ghost var start, p := code, Waits();
      var endFixups := EmitArms(es, n);
      Emit(Trap);
      ghost var open := Arms(isa, es, n, p) + [Trap];
      assert code == start + open;
      EndsSkip(isa, es, n, p);
      PatchEnds(endFixups, start, open, Ends(isa, es, n, p));
      ChainPatched(isa, es, n, p, code[|start|..]);
      assert code == start + code[|start|..];
    }

    /** An interface call on either target. */
    method CompileIfaceCall(es: seq<Impl>, n: nat)
      modifies this
      ensures code == old(code) + IfaceCode(isa, es, n, old(Waits())).0 && Waits() == IfaceCode(isa, es, n, old(Waits())).1
    {
      hide SaveCode, RestoreCode, Chain, Pending.OpPop, Flush;
      ghost var a := SaveCode(n, Waits());
      ghost var b := RestoreCode(n, Some(RDX));
      SaveArgs(n);
      OpPop(RAX);
      Emit(LoadMem(RCX, RAX, 0, WORD));
      Emit(LoadMem(RDX, RAX, 8, WORD));
      assert Pending.OpPush(None, RDX).0 == [] by { NoFlush(); }
      OpPush(RDX);
      RestoreArgs(n);
      Emit(PushSaved(RCX));
      Emit(PopSaved(RCX));
      ghost var was := code;
      EmitChain(es, n);
      Regroup(old(code), a.0, Pending.OpPop(a.1, RAX).0, LoadMem(RCX, RAX, 0, WORD), LoadMem(RDX, RAX, 8, WORD), b.0,
              PushSaved(RCX), PopSaved(RCX), Chain(isa, es, n, b.1).0);
    }

    /** Pop the parameters into the frame, the last one first. */
    method CompileParams(params: nat)
      requires !hasPending
      modifies this
      ensures code == old(code) + Gen(Prologue(params)).0 && !hasPending && Gen(Prologue(params)).1 == None
    {
      hide OpCode, Gen, Pending.OpPop;
      ghost var start, all := code, Prologue(params);
      NoGen();
      var i := params - 1;
      assert all[..0] == [] && start + [] == start;
      while i >= 0
        invariant -1 <= i < params && !hasPending && Gen(all[..params - 1 - i]).1 == None
        invariant code == start + Gen(all[..params - 1 - i]).0
      {
        GenSnoc(all, params - 1 - i);
        LocalSetCode(i);
        OpPop(RAX);
        Emit(StoreLocal(i, RAX));
        i := i - 1;
      }
      assert all[..params] == all;
    }

    method CompileFunc(params: nat, body: seq<Op>)
      requires isa.X64?
      modifies this
      ensures code == old(code) + Gen(Prologue(params) + body).0
    {
      hide OpCode, Prologue;
      hasPending := false;
      ghost var start, all := code, Prologue(params) + body;
      CompileParams(params);
      var k := 0;
      assert all[..params] == Prologue(params);
      while k < |body|
        invariant 0 <= k <= |body| && code == start + Gen(all[..params + k]).0 && Waits() == Gen(all[..params + k]).1
      {
        hide Gen;
        GenSnoc(all, params + k);
        assert all[params + k] == body[k];
        CompileOp(body[k]);
        k := k + 1;
      }
      assert all[..params + k] == all;
    }
  }

  lemma NoGen()
    ensures Gen([]) == ([], None)
  {
  }

  lemma GenSnoc(all: seq<Op>, k: nat)
    requires k < |all|
    ensures var g := Gen(all[..k]);
      var c := OpCode(X64, all[k], g.1);
      Gen(all[..k + 1]) == (g.0 + c.0, c.1)
  {
    hide OpCode;
    assert all[..k + 1][..k] == all[..k];
  }

  lemma LocalSetCode(i: int)
    ensures OpCode(X64, Basic(LocalSet(i)), None) == (Pending.OpPop(None, RAX).0 + [StoreLocal(i, RAX)], None)
  {
  }

  lemma NoFlush()
    ensures Flush(None) == []
  {
  }

  function Aimed(i: Asm, over: nat): Asm
    requires IsSkip(i)
  {
    if i.Skip? then Skip(over) else SkipIf(i.cond, over)
  }

  lemma Regroup(c: seq<Asm>, a: seq<Asm>, pop: seq<Asm>, x: Asm, y: Asm, b: seq<Asm>, u: Asm, v: Asm, d: seq<Asm>)
    ensures c + a + pop + [x] + [y] + b + [u] + [v] + d == c + (a + (pop + ([x, y] + (b + ([u, v] + d)))))
  {
  }

  // ----- the chain before and after patching -----

  /** All arms with their last jumps still open. */
  function Arms(isa: Isa, es: seq<Impl>, n: nat, p: Pend): seq<Asm> {
    if es == [] then [] else Arm(isa, es[0], n, p, 0) + Arms(isa, es[1..], n, None)
  }

  function Shifted(s: seq<nat>, d: nat): (r: seq<nat>)
    ensures |r| == |s| && forall i :: 0 <= i < |s| ==> r[i] == s[i] + d
  {
    seq(|s|, i requires 0 <= i < |s| => s[i] + d)
  }

  /** Where the last jump of each arm stands. */
  function Ends(isa: Isa, es: seq<Impl>, n: nat, p: Pend): (r: seq<nat>)
    ensures |r| == |es|
  {
    if es == [] then []
    else
      var a := Arm(isa, es[0], n, p, 0);
      [|a| - 1] + Shifted(Ends(isa, es[1..], n, None), |a|)
  }

  function PendAfter(es: seq<Impl>, p: Pend): Pend {
    if es == [] then p else None
  }

  lemma ArmLast(isa: Isa, e: Impl, n: nat, p: Pend, rest: nat)
    ensures var a := Arm(isa, e, n, p, 0);
      |a| >= 1 && a[|a| - 1] == Skip(0) && Arm(isa, e, n, p, rest) == a[|a| - 1 := Skip(rest)]
  {
  }

  lemma ShiftSnoc(s: seq<nat>, x: nat, d: nat)
    ensures Shifted(s + [x], d) == Shifted(s, d) + [x + d]
  {
  }

  lemma NoArms(isa: Isa, n: nat, p: Pend)
    ensures Arms(isa, [], n, p) == [] && Ends(isa, [], n, p) == []
  {
  }

  lemma {:induction false} ArmsSnoc(isa: Isa, es: seq<Impl>, e: Impl, n: nat, p: Pend)
    ensures Arms(isa, es + [e], n, p) == Arms(isa, es, n, p) + Arm(isa, e, n, PendAfter(es, p), 0)
    ensures |Arms(isa, es + [e], n, p)| >= 1
    ensures Ends(isa, es + [e], n, p) == Ends(isa, es, n, p) + [|Arms(isa, es + [e], n, p)| - 1]
    decreases es
  {
    hide Arm, Shifted, Arms, Ends;
    ArmLast(isa, e, n, PendAfter(es, p), 0);
    var all := es + [e];
    ArmsFront(isa, all, n, p);
    if es == [] {
      NoArms(isa, n, p);
      NoArms(isa, n, None);
      NoShift(|Arm(isa, e, n, p, 0)|);
      OneArm(isa, e, n, p, all);
    } else {
      ArmsFront(isa, es, n, p);
      assert all[1..] == es[1..] + [e];
      ArmsSnoc(isa, es[1..], e, n, None);
      ShiftSnoc(Ends(isa, es[1..], n, None), |Arms(isa, es[1..] + [e], n, None)| - 1, |Arm(isa, es[0], n, p, 0)|);
    }
  }

  lemma OneArm(isa: Isa, e: Impl, n: nat, p: Pend, es: seq<Impl>)
    requires es == [] + [e]
    ensures es[1..] == [] && es[0] == e
    ensures Arm(isa, e, n, p, 0) + [] == [] + Arm(isa, e, n, p, 0)
  {
  }

  lemma NoShift(d: nat)
    ensures Shifted([], d) == []
  {
  }

  lemma ArmsFront(isa: Isa, es: seq<Impl>, n: nat, p: Pend)
    requires es != []
    ensures var a := Arm(isa, es[0], n, p, 0);
      && |a| >= 1
      && Arms(isa, es, n, p) == a + Arms(isa, es[1..], n, None)
      && Ends(isa, es, n, p) == [|a| - 1] + Shifted(Ends(isa, es[1..], n, None), |a|)
  {
    hide Arm, Shifted, Arms, Ends;
    ArmLast(isa, es[0], n, p, 0);
    ArmsHead(isa, es, n, p);
    EndsHead(isa, es, n, p);
  }

  lemma ArmsHead(isa: Isa, es: seq<Impl>, n: nat, p: Pend)
    requires es != []
    ensures Arms(isa, es, n, p) == Arm(isa, es[0], n, p, 0) + Arms(isa, es[1..], n, None)
  {
    hide Arm;
  }

  lemma EndsHead(isa: Isa, es: seq<Impl>, n: nat, p: Pend)
    requires es != [] && |Arm(isa, es[0], n, p, 0)| >= 1
    ensures var a := |Arm(isa, es[0], n, p, 0)|;
      Ends(isa, es, n, p) == [a - 1] + Shifted(Ends(isa, es[1..], n, None), a)
  {
    hide Arm, Shifted;
  }

  /** The code at position q once these ends are patched. */
  function Half(open: seq<Asm>, ends: seq<nat>, q: nat): Asm
    requires q < |open|
  {
    if q in ends then Skip(|open| - q - 1) else open[q]
  }

  lemma HalfStep(open: seq<Asm>, ends: seq<nat>, j: nat)
    requires j < |ends| && forall i :: 0 <= i < |ends| ==> ends[i] < |open| && open[ends[i]].Skip?
    ensures ends[j] < |open| && Half(open, ends[..j], ends[j]).Skip?
    ensures forall q :: 0 <= q < |open| ==>
      Half(open, ends[..j + 1], q) == if q == ends[j] then Skip(|open| - q - 1) else Half(open, ends[..j], q)
  {
    assert ends[..j + 1] == ends[..j] + [ends[j]];
  }

  lemma {:induction false} EndsSkip(isa: Isa, es: seq<Impl>, n: nat, p: Pend)
    ensures var ends, arms := Ends(isa, es, n, p), Arms(isa, es, n, p);
      forall i :: 0 <= i < |ends| ==> ends[i] < |arms| && arms[ends[i]].Skip?
    decreases es
  {
    if es != [] {
      hide Arm, Arms, Ends;
      ArmLast(isa, es[0], n, p, 0);
      ArmsFront(isa, es, n, p);
      EndsSkip(isa, es[1..], n, None);
      SkipsShift(Arm(isa, es[0], n, p, 0), Arms(isa, es[1..], n, None), Ends(isa, es[1..], n, None));
    }
  }

  /** The ends of one more arm in front. */
  lemma SkipsShift(a: seq<Asm>, arms: seq<Asm>, ends: seq<nat>)
    requires a != [] && a[|a| - 1].Skip? && forall i :: 0 <= i < |ends| ==> ends[i] < |arms| && arms[ends[i]].Skip?
    ensures var more := [|a| - 1] + Shifted(ends, |a|);
      forall i :: 0 <= i < |more| ==> more[i] < |a + arms| && (a + arms)[more[i]].Skip?
  {
    var more := [|a| - 1] + Shifted(ends, |a|);
    forall i | 0 <= i < |more|
      ensures more[i] < |a + arms| && (a + arms)[more[i]].Skip?
    {
      if i > 0 {
        assert more[i] == ends[i - 1] + |a| && (a + arms)[more[i]] == arms[ends[i - 1]];
      }
    }
  }

  /** Patching the ends of all arms gives the chain. */
  lemma {:induction false} ChainPatched(isa: Isa, es: seq<Impl>, n: nat, p: Pend, c: seq<Asm>)
    requires var open := Arms(isa, es, n, p) + [Trap];
      |c| == |open| && forall q :: 0 <= q < |open| ==> c[q] == Half(open, Ends(isa, es, n, p), q)
    ensures c == Chain(isa, es, n, p).0 && Chain(isa, es, n, p).1 == PendAfter(es, p)
    decreases es
  {
    if es == [] {
      assert c == [Trap];
    } else {
      hide Arm;
      hide Arms, Ends, Chain, Half;
      var a, rest := Arm(isa, es[0], n, p, 0), Arms(isa, es[1..], n, None);
      ArmsFront(isa, es, n, p);
      ArmLast(isa, es[0], n, p, |rest| + 1);
      HalfFront(a, rest, Ends(isa, es[1..], n, None), c);
      ChainPatched(isa, es[1..], n, None, c[|a|..]);
      ChainFront(isa, es, n, p);
    }
  }

  lemma ChainFront(isa: Isa, es: seq<Impl>, n: nat, p: Pend)
    requires es != []
    ensures var r := Chain(isa, es[1..], n, None);
      Chain(isa, es, n, p) == (Arm(isa, es[0], n, p, |r.0|) + r.0, r.1)
  {
  }

  /** The first arm and the rest of a patched chain. */
  lemma HalfFront(a: seq<Asm>, rest: seq<Asm>, later: seq<nat>, c: seq<Asm>)
    requires a != []
    requires var open := a + rest + [Trap];
      |c| == |open| && forall q :: 0 <= q < |open| ==> c[q] == Half(open, [|a| - 1] + Shifted(later, |a|), q)
    ensures forall q :: 0 <= q < |rest| + 1 ==> c[|a|..][q] == Half(rest + [Trap], later, q)
    ensures c == a[|a| - 1 := Skip(|rest| + 1)] + c[|a|..]
  {
    hide Shifted;
    var open, ends := a + rest + [Trap], [|a| - 1] + Shifted(later, |a|);
    forall q | 0 <= q < |rest| + 1
      ensures c[|a|..][q] == Half(rest + [Trap], later, q)
    {
      LaterEnd(a, later, q);
      assert c[|a|..][q] == c[|a| + q] == Half(open, ends, |a| + q);
    }
    forall q | 0 <= q < |a|
      ensures c[q] == a[|a| - 1 := Skip(|rest| + 1)][q]
    {
      FirstEnd(a, later, q);
      assert c[q] == Half(open, ends, q);
    }
    assert c[..|a|] == a[|a| - 1 := Skip(|rest| + 1)];
    assert c == c[..|a|] + c[|a|..];
  }

  lemma LaterEnd(a: seq<Asm>, later: seq<nat>, q: nat)
    requires a != []
    ensures |a| + q in [|a| - 1] + Shifted(later, |a|) <==> q in later
  {
    var s := Shifted(later, |a|);
    if q in later {
      var i :| 0 <= i < |later| && later[i] == q;
      assert s[i] == |a| + q;
    }
    if |a| + q in s {
      var i :| 0 <= i < |s| && s[i] == |a| + q;
      assert later[i] == q;
    }
  }

  lemma FirstEnd(a: seq<Asm>, later: seq<nat>, q: nat)
    requires q < |a|
    ensures q in [|a| - 1] + Shifted(later, |a|) <==> q == |a| - 1
  {
  }
}
