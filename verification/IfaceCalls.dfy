/** Interface calls: the arguments go over the machine's stack and back, the receiver takes
    the place of the interface value, a chain of comparisons picks the method. On x86-64 the
    code refines the eager machine; on ARM64 it does exactly when there is one method at most. */
module IfaceCalls {
  import opened Ir
  import opened Eager
  import opened Native
  import opened Pending
  import opened PendingInsts

  function Rev(s: seq<int>): (r: seq<int>)
    ensures |r| == |s|
  {
    if s == [] then [] else Rev(s[1..]) + [s[0]]
  }

  lemma {:induction false} RevLast(s: seq<int>)
    requires s != []
    ensures Rev(s) == [s[|s| - 1]] + Rev(s[..|s| - 1])
  {
    if |s| > 1 {
      RevLast(s[1..]);
      assert s[1..][..|s| - 2] == s[..|s| - 1][1..];
    }
  }

  // ----- the arguments -----

  lemma {:induction false} SaveClosed(k: nat, p: Pend)
    ensures Closed(SaveCode(k, p).0)
    decreases k
  {
    if k > 0 {
      PopGives(p, RAX);
      SaveClosed(k - 1, None);
      ClosedAppend(OpPop(p, RAX).0, [PushSaved(RAX)]);
      ClosedAppend(OpPop(p, RAX).0 + [PushSaved(RAX)], SaveCode(k - 1, None).0);
    }
  }

  /** The k topmost values are on the machine's stack, in order from its top. */
  ghost predicate Saved(k: nat, p: Pend, n: NState, q: Pend, t: Option<NState>) {
    var all := All(p, n);
    match t
    case None => |all| < k
    case Some(t) =>
      && |all| >= k && All(q, t) == all[..|all| - k] && t.saved == n.saved + Rev(all[|all| - k..])
      && t.locals == n.locals && t.mem == n.mem
  }

  lemma {:induction false} SaveGives(w: World, k: nat, p: Pend, n: NState)
    ensures Saved(k, p, n, SaveCode(k, p).1, ExecAll(w, SaveCode(k, p).0, n))
    decreases k
  {
    hide OpPop, ExecAll, Closed, Saved, All;
    var all := All(p, n);
    if k == 0 {
      SavedNothing(w, p, n);
    } else {
      var rest := SaveCode(k - 1, None).0;
      SaveClosed(k - 1, None);
      var u := SaveOne(w, p, n);
      ExecAppend(w, OpPop(p, RAX).0 + [PushSaved(RAX)], rest, n);
      if all != [] {
        SaveGives(w, k - 1, None, u);
        SavedMore(k, p, n, u, SaveCode(k - 1, None).1, ExecAll(w, rest, u));
      } else {
        SavedNone(k, p, n, SaveCode(k - 1, None).1);
      }
    }
  }

  lemma SavedNothing(w: World, p: Pend, n: NState)
    ensures Saved(0, p, n, p, ExecAll(w, [], n))
  {
    var all := All(p, n);
    assert all[|all|..] == [] && all[..|all|] == all && n.saved + [] == n.saved;
  }

  lemma SavedNone(k: nat, p: Pend, n: NState, q: Pend)
    requires k > 0 && All(p, n) == []
    ensures Saved(k, p, n, q, None)
  {
  }

  lemma SaveOne(w: World, p: Pend, n: NState) returns (u: NState)
    ensures var os, all := OpPop(p, RAX).0 + [PushSaved(RAX)], All(p, n);
      && Closed(os)
      && (all == [] ==> ExecAll(w, os, n) == None)
      && (all != [] ==>
           && ExecAll(w, os, n) == Some(u) && u.saved == n.saved + [all[|all| - 1]]
           && All(None, u) == all[..|all| - 1] && u.locals == n.locals && u.mem == n.mem)
  {
    hide OpPop, ExecAll, Closed;
    u := n;
    var all := All(p, n);
    PopGives(p, RAX);
    ExecOne(w, PushSaved(RAX), n);
    ExecAppend(w, OpPop(p, RAX).0, [PushSaved(RAX)], n);
    assert ExecAll(w, OpPop(p, RAX).0, n) == Taken(all, RAX, n);
    if all != [] {
      var t := Taken(all, RAX, n).value;
      ExecOne(w, PushSaved(RAX), t);
      u := Exec1(w, PushSaved(RAX), t).value;
      assert u.stack + [] == u.stack;
    }
  }

  lemma SavedMore(k: nat, p: Pend, n: NState, u: NState, q: Pend, t: Option<NState>)
    requires k > 0 && All(p, n) != [] && Saved(k - 1, None, u, q, t)
    requires var m := |All(p, n)| - 1;
      u.saved == n.saved + [All(p, n)[m]] && All(None, u) == All(p, n)[..m]
    requires u.locals == n.locals && u.mem == n.mem
    ensures Saved(k, p, n, q, t)
  {
    hide Rev, All;
    if t.Some? {
      RevMore(n.saved, All(p, n), k);
    }
  }

  lemma RevMore(base: seq<int>, all: seq<int>, k: nat)
    requires 1 <= k <= |all|
    ensures var m := |all| - 1;
      && base + [all[m]] + Rev(all[..m][m - (k - 1)..]) == base + Rev(all[|all| - k..])
      && all[..m][..m - (k - 1)] == all[..|all| - k]
  {
    hide Rev;
    var m, top := |all| - 1, all[|all| - k..];
    assert all[..m][m - (k - 1)..] == top[..k - 1];
    RevLast(top);
  }

  lemma {:induction false} RestoreClosed(k: nat, p: Pend)
    ensures Closed(RestoreCode(k, p).0)
    decreases k
  {
    if k > 0 {
      FlushKeeps(p);
      RestoreClosed(k - 1, Some(RAX));
      ClosedAppend(Flush(p), [PopSaved(RAX)]);
      ClosedAppend(Flush(p) + [PopSaved(RAX)], RestoreCode(k - 1, Some(RAX)).0);
    }
  }

  /** The arguments are back on the operand stack; RCX is as it was. */
  lemma {:induction false} RestoreGives(w: World, k: nat, p: Pend, n: NState, args: seq<int>) returns (t: NState)
    requires |args| == k && n.saved == Rev(args) && (p == Some(RAX) || p == Some(RDX))
    ensures ExecAll(w, RestoreCode(k, p).0, n) == Some(t)
    ensures All(RestoreCode(k, p).1, t) == All(p, n) + args && t.saved == [] && t.regs.rcx == n.regs.rcx
    ensures t.locals == n.locals && t.mem == n.mem && RestoreCode(k, p).1 == if k == 0 then p else Some(RAX)
    decreases k
  {
    hide ExecAll, Closed, Flush, Exec1, Rev, All;
    if k == 0 {
      assert All(p, n) + args == All(p, n);
      t := n;
      ExecNothing(w, n, args);
    } else {
      var rest := RestoreCode(k - 1, Some(RAX)).0;
      RestoreClosed(k - 1, Some(RAX));
      var v := RestoreOne(w, p, n, args);
      ExecAppend(w, Flush(p) + [PopSaved(RAX)], rest, n);
      t := RestoreGives(w, k - 1, Some(RAX), v, args[1..]);
      assert All(p, n) + [args[0]] + args[1..] == All(p, n) + args;
    }
  }

  lemma ExecNothing(w: World, n: NState, args: seq<int>)
    ensures ExecAll(w, [], n) == Some(n) && (args == [] ==> Rev(args) == [])
  {
  }

  lemma RestoreOne(w: World, p: Pend, n: NState, args: seq<int>) returns (v: NState)
    requires args != [] && n.saved == Rev(args)
    ensures Closed(Flush(p) + [PopSaved(RAX)]) && ExecAll(w, Flush(p) + [PopSaved(RAX)], n) == Some(v)
    ensures v.saved == Rev(args[1..]) && All(Some(RAX), v) == All(p, n) + [args[0]]
    ensures v.regs.rcx == n.regs.rcx && v.locals == n.locals && v.mem == n.mem
  {
    hide ExecAll, Closed, Flush;
    FlushUse(w, p, n);
    var u := n.(stack := All(p, n));
    ExecOne(w, PopSaved(RAX), u);
    ExecAppend(w, Flush(p), [PopSaved(RAX)], n);
    v := Exec1(w, PopSaved(RAX), u).value;
  }

  // ----- the chain -----

  lemma ArmClosed(isa: Isa, e: Impl, k: nat, p: Pend, rest: seq<Asm>)
    requires Closed(rest)
    ensures Closed(Arm(isa, e, k, p, |rest|) + rest)
  {
    FlushKeeps(p);
    FlushKeeps(Branch(isa, p).1);
    var b := Branch(isa, p);
    var c := CallCode(e.f, k + 1, b.1).0;
    var all := Arm(isa, e, k, p, |rest|) + rest;
    CallClosed(e.f, k + 1, b.1);
    assert all == [CmpImm(RCX, e.id)] + (b.0 + ([SkipIf(CondNE, |c| + 1)] + (c + ([Skip(|rest|)] + rest))));
    ClosedSkip(rest);
    ClosedAppend(c, [Skip(|rest|)] + rest);
    ClosedSkipIf(|c| + 1, c + ([Skip(|rest|)] + rest));
    ClosedAppend(b.0, [SkipIf(CondNE, |c| + 1)] + (c + ([Skip(|rest|)] + rest)));
    ClosedAppend([CmpImm(RCX, e.id)], b.0 + ([SkipIf(CondNE, |c| + 1)] + (c + ([Skip(|rest|)] + rest))));
  }

  lemma CallClosed(f: string, k: nat, p: Pend)
    ensures Closed(CallCode(f, k, p).0)
  {
    FlushKeeps(p);
    ClosedAppend(Flush(p), [CallTo(f, k)]);
  }

  lemma ClosedSkip(rest: seq<Asm>)
    requires Closed(rest)
    ensures Closed([Skip(|rest|)] + rest)
  {
    var os := [Skip(|rest|)] + rest;
    forall i | 0 <= i < |os|
      ensures !IsBranch(os[i]) && (IsSkip(os[i]) ==> i + 1 + os[i].over <= |os|)
    {
      if i > 0 {
        assert os[i] == rest[i - 1];
      }
    }
  }

  lemma ClosedSkipIf(j: nat, rest: seq<Asm>)
    requires Closed(rest) && j <= |rest|
    ensures Closed([SkipIf(CondNE, j)] + rest)
  {
    var os := [SkipIf(CondNE, j)] + rest;
    forall i | 0 <= i < |os|
      ensures !IsBranch(os[i]) && (IsSkip(os[i]) ==> i + 1 + os[i].over <= |os|)
    {
      if i > 0 {
        assert os[i] == rest[i - 1];
      }
    }
  }

  lemma {:induction false} ChainClosed(isa: Isa, es: seq<Impl>, k: nat, p: Pend)
    ensures Closed(Chain(isa, es, k, p).0)
    decreases es
  {
    if es != [] {
      ChainClosed(isa, es[1..], k, None);
      ArmClosed(isa, es[0], k, p, Chain(isa, es[1..], k, None).0);
    }
  }

  /** What an arm does: nothing but a flush when the id differs, otherwise the call, with
      everything in memory, and out of the chain. */
  lemma ArmGives(w: World, isa: Isa, e: Impl, k: nat, p: Pend, rest: seq<Asm>, n: NState)
    requires Closed(rest) && 0 <= n.regs.rcx < TWO64 && 0 <= e.id < HALF32
    ensures var f := Compared(SignedWord(n.regs.rcx), e.id);
      ExecAll(w, Arm(isa, e, k, p, |rest|) + rest, n) ==
        if n.regs.rcx != e.id then ExecAll(w, rest, n.(stack := if isa.X64? then All(p, n) else n.stack, flags := f))
        else AfterCall(w, e.f, k + 1, n.(stack := All(p, n), flags := f))
  {
    hide ExecAll, Closed, Flush, Exec1;
    var b := Branch(isa, p);
    var c := CallCode(e.f, k + 1, b.1).0;
    var f := Compared(SignedWord(n.regs.rcx), e.id);
    var out := [Skip(|rest|)] + rest;
    var body := [SkipIf(CondNE, |c| + 1)] + (c + out);
    assert Arm(isa, e, k, p, |rest|) + rest == [CmpImm(RCX, e.id)] + (b.0 + body);
    CallClosed(e.f, k + 1, b.1);
    ClosedSkip(rest);
    ClosedAppend(c, out);
    ClosedSkipIf(|c| + 1, c + out);
    var t := n.(flags := f);
    var u := t.(stack := if isa.X64? then All(p, n) else n.stack);
    BranchGives(w, isa, p, t);
    ClosedAppend(b.0, body);
    Compares(w, e.id, n);
    ExecAppend(w, [CmpImm(RCX, e.id)], b.0 + body, n);
    ExecAppend(w, b.0, body, t);
    SkipsCall(w, |c| + 1, c + out, u);
    assert (c + out)[|c| + 1..] == rest;
    IdCompared(n.regs.rcx, e.id);
    if n.regs.rcx == e.id {
      ExecAppend(w, c, out, u);
      CallGives(w, e.f, k + 1, b.1, u);
      assert All(b.1, u) == All(p, n);
      if AfterCall(w, e.f, k + 1, n.(stack := All(p, n), flags := f)).Some? {
        SkipsRest(w, rest, AfterCall(w, e.f, k + 1, n.(stack := All(p, n), flags := f)).value);
      }
    }
  }

  lemma IdCompared(x: int, id: int)
    requires 0 <= x < TWO64 && 0 <= id < HALF32
    ensures SignedWord(x) == id <==> x == id
  {
  }

  lemma Compares(w: World, id: int, n: NState)
    ensures Closed([CmpImm(RCX, id)])
    ensures ExecAll(w, [CmpImm(RCX, id)], n) == Some(n.(flags := Compared(SignedWord(n.regs.rcx), id)))
  {
    ExecOne(w, CmpImm(RCX, id), n);
  }

  lemma BranchGives(w: World, isa: Isa, p: Pend, t: NState)
    ensures Closed(Branch(isa, p).0)
    ensures ExecAll(w, Branch(isa, p).0, t) == Some(t.(stack := if isa.X64? then All(p, t) else t.stack))
  {
    FlushUse(w, p, t);
  }

  /** The conditional skip of an arm. */
  lemma SkipsCall(w: World, j: nat, os: seq<Asm>, t: NState)
    requires j <= |os| && t.flags.Compared?
    ensures ExecAll(w, [SkipIf(CondNE, j)] + os, t) ==
      if t.flags.left != t.flags.right then ExecAll(w, os[j..], t) else ExecAll(w, os, t)
  {
    var all := [SkipIf(CondNE, j)] + os;
    assert all[1..] == os && all[1 + j..] == os[j..];
  }

  lemma SkipsRest(w: World, rest: seq<Asm>, t: NState)
    ensures ExecAll(w, [Skip(|rest|)] + rest, t) == Some(t)
  {
    assert ([Skip(|rest|)] + rest)[1 + |rest|..] == [];
  }

  lemma CallGives(w: World, f: string, k: nat, p: Pend, t: NState)
    ensures ExecAll(w, CallCode(f, k, p).0, t) == AfterCall(w, f, k, t.(stack := All(p, t)))
  {
    hide ExecAll, Flush, Closed, AfterCall, All;
    FlushUse(w, p, t);
    ExecOne(w, CallTo(f, k), t.(stack := All(p, t)));
    ExecAppend(w, Flush(p), [CallTo(f, k)], t);
  }

  lemma FlagsFree(w: World, f: string, k: nat, n: NState, m: NState)
    requires m == n.(flags := m.flags)
    ensures AfterCall(w, f, k, m) == AfterCall(w, f, k, n)
  {
  }

  /** On x86-64, or with nothing to flush, or with one method at most, the chain calls the method of the type on the
      whole operand stack. */
  lemma {:induction false} ChainGives(w: World, isa: Isa, es: seq<Impl>, k: nat, p: Pend, n: NState)
    requires 0 <= n.regs.rcx < TWO64 && IdsFit(es) && (isa.X64? || p.None? || |es| <= 1)
    ensures ExecAll(w, Chain(isa, es, k, p).0, n) ==
      match Method(es, n.regs.rcx)
      case None => None
      case Some(f) => AfterCall(w, f, k + 1, n.(stack := All(p, n)))
    decreases es
  {
    if es != [] {
      hide ExecAll, Closed, Arm;
      var rest := Chain(isa, es[1..], k, None).0;
      ChainClosed(isa, es[1..], k, None);
      ArmGives(w, isa, es[0], k, p, rest, n);
      var f := Compared(SignedWord(n.regs.rcx), es[0].id);
      assert p.None? ==> n.stack + [] == n.stack;
      var u := n.(stack := All(p, n), flags := f);
      ChainGives(w, isa, es[1..], k, None, n.(flags := f));
      ChainGives(w, isa, es[1..], k, None, u);
      assert u.stack + [] == u.stack;
      var m := if n.regs.rcx == es[0].id then Some(es[0].f) else Method(es[1..], n.regs.rcx);
      if m.Some? {
        FlagsFree(w, m.value, k + 1, n.(stack := All(p, n)), u);
      }
    } else {
      ExecOne(w, Trap, n);
    }
  }

  // ----- the whole call -----

  /** What the code does before the chain. */
  lemma BeforeChain(w: World, k: nat, p: Pend, n: NState, s: XState, chain: seq<Asm>) returns (t: NState)
    requires Refines(p, n, s) && Closed(chain)
    ensures var a := SaveCode(k, p);
      var b := RestoreCode(k, Some(RDX));
      var os := a.0 + (OpPop(a.1, RAX).0 + ([LoadMem(RCX, RAX, 0, WORD), LoadMem(RDX, RAX, 8, WORD)]
        + (b.0 + ([PushSaved(RCX), PopSaved(RCX)] + chain))));
      && Closed(os)
      && match Opened(k, s)
         case None => ExecAll(w, os, n) == None
         case Some(x) =>
           && ExecAll(w, os, n) == ExecAll(w, chain, t) && t.regs.rcx == x.0 && 0 <= x.0 < TWO64
           && All(b.1, t) == x.1 && t.locals == n.locals && t.mem == n.mem && t.saved == [] && AreWords(x.1)
  {
    hide ExecAll, Closed, OpPop, Peek, SaveCode, RestoreCode;
    t := n;
    var a, b := SaveCode(k, p), RestoreCode(k, Some(RDX));
    var all := s.stack;
    var loads, keep := [LoadMem(RCX, RAX, 0, WORD), LoadMem(RDX, RAX, 8, WORD)], [PushSaved(RCX), PopSaved(RCX)];
    var os4 := keep + chain;
    var os3 := b.0 + os4;
    var os2 := loads + os3;
    var os1 := OpPop(a.1, RAX).0 + os2;
    SaveClosed(k, p);
    RestoreClosed(k, Some(RDX));
    KeepClosed(w, n);
    ClosedAppend(keep, chain);
    ClosedAppend(b.0, os4);
    LoadsClosed();
    ClosedAppend(loads, os3);
    PopGives(a.1, RAX);
    ClosedAppend(OpPop(a.1, RAX).0, os2);
    SaveGives(w, k, p, n);
    ExecAppend(w, a.0, os1, n);
    if |all| >= k {
      var n1 := ExecAll(w, a.0, n).value;
      ExecAppend(w, OpPop(a.1, RAX).0, os2, n1);
      assert ExecAll(w, OpPop(a.1, RAX).0, n1) == Taken(All(a.1, n1), RAX, n1);
      if |all| > k {
        var j := |all| - k - 1;
        var args := all[j + 1..];
        assert all[..|all| - k][..j] == all[..j];
        var n2 := Taken(All(a.1, n1), RAX, n1).value;
        assert n2.regs.rax == all[j] && n2.stack == all[..j] && n2.saved == Rev(args);
        t := AfterPop(w, k, n2, s, chain);
      }
    }
  }

  /** From the point where the interface value has been popped. */
  lemma AfterPop(w: World, k: nat, n: NState, s: XState, chain: seq<Asm>) returns (t: NState)
    requires Closed(chain) && |s.stack| > k && s.mem == n.mem && AreWords(s.stack)
    requires var j := |s.stack| - k - 1;
      n.regs.rax == s.stack[j] && n.stack == s.stack[..j] && n.saved == Rev(s.stack[j + 1..])
    ensures var b := RestoreCode(k, Some(RDX));
      var os := [LoadMem(RCX, RAX, 0, WORD), LoadMem(RDX, RAX, 8, WORD)] + (b.0 + ([PushSaved(RCX), PopSaved(RCX)] + chain));
      match Opened(k, s)
      case None => ExecAll(w, os, n) == None
      case Some(x) =>
        && ExecAll(w, os, n) == ExecAll(w, chain, t) && t.regs.rcx == x.0 && 0 <= x.0 < TWO64
        && All(b.1, t) == x.1 && t.locals == n.locals && t.mem == n.mem && t.saved == [] && AreWords(x.1)
  {
    hide ExecAll, Closed, Peek, RestoreCode, Rev;
    t := n;
    var b := RestoreCode(k, Some(RDX));
    var loads, keep := [LoadMem(RCX, RAX, 0, WORD), LoadMem(RDX, RAX, 8, WORD)], [PushSaved(RCX), PopSaved(RCX)];
    var all, j := s.stack, |s.stack| - k - 1;
    RestoreClosed(k, Some(RDX));
    KeepClosed(w, n);
    ClosedAppend(keep, chain);
    ClosedAppend(b.0, keep + chain);
    LoadsClosed();
    BoxLoads(w, n);
    ExecAppend(w, loads, b.0 + (keep + chain), n);
    if ExecAll(w, loads, n).Some? {
      var m := ExecAll(w, loads, n).value;
      t := RestoreGives(w, k, Some(RDX), m, all[j + 1..]);
      KeepClosed(w, t);
      ExecAppend(w, b.0, keep + chain, m);
      ExecAppend(w, keep, chain, t);
      assert all[j := m.regs.rdx] == all[..j] + [m.regs.rdx] + all[j + 1..];
    }
  }

  /** The type id and the stack with the receiver in the place of the interface value. */
  function Opened(k: nat, s: XState): Option<(int, seq<int>)> {
    if |s.stack| <= k then None
    else
      var j := |s.stack| - k - 1;
      match Read(s.mem, Wrapped(s.stack[j]), WORD)
      case None => None
      case Some(id) =>
        match Read(s.mem, Wrapped(s.stack[j] + WORD), WORD)
        case None => None
        case Some(v) => Some((id, s.stack[j := v]))
  }

  lemma LoadsClosed()
    ensures Closed([LoadMem(RCX, RAX, 0, WORD), LoadMem(RDX, RAX, 8, WORD)])
  {
  }

  lemma KeepClosed(w: World, t: NState)
    ensures Closed([PushSaved(RCX), PopSaved(RCX)]) && ExecAll(w, [PushSaved(RCX), PopSaved(RCX)], t) == Some(t)
  {
    var u := t.(saved := t.saved + [t.regs.rcx]);
    TwoOps(w, PushSaved(RCX), PopSaved(RCX), t, u);
    assert u.saved[..|u.saved| - 1] == t.saved;
  }

  lemma BoxLoads(w: World, n: NState)
    ensures var t := ExecAll(w, [LoadMem(RCX, RAX, 0, WORD), LoadMem(RDX, RAX, 8, WORD)], n);
      var id, v := Read(n.mem, Wrapped(n.regs.rax), WORD), Read(n.mem, Wrapped(n.regs.rax + WORD), WORD);
      if id.None? || v.None? then t == None
      else
        && t == Some(n.(regs := Regs(n.regs.rax, id.value, v.value)))
        && 0 <= id.value < TWO64 && 0 <= v.value < TWO64
  {
    hide Peek;
    var x, y := LoadMem(RCX, RAX, 0, WORD), LoadMem(RDX, RAX, 8, WORD);
    PeekFits(n.mem, Wrapped(n.regs.rax), WORD);
    PeekFits(n.mem, Wrapped(n.regs.rax + WORD), WORD);
    assert [x, y][1..] == [y];
    if Exec1(w, x, n).Some? {
      TwoOps(w, x, y, n, Exec1(w, x, n).value);
    }
  }

  lemma OpenedIs(w: World, es: seq<Impl>, k: nat, s: XState)
    ensures Dispatched(w, es, k, s) == match Opened(k, s)
      case None => None
      case Some(x) => match Method(es, x.0) case None => None case Some(f) => Called(w, f, k + 1, s.(stack := x.1))
  {
  }

  /** An interface call does what the eager machine does, for any type and anything pending. */
  lemma IfaceRefines(isa: Isa, w: World, es: seq<Impl>, k: nat, p: Pend, n: NState, s: XState)
    requires Refines(p, n, s) && IdsFit(es) && (isa.X64? || |es| <= 1)
    ensures InStep(isa, w, IfaceCall(es, k), p, n, s)
  {
    hide ExecAll, Closed, OpPop, Peek, SaveCode, RestoreCode, Chain, Opened;
    var q := RestoreCode(k, Some(RDX)).1;
    var c := Chain(isa, es, k, q);
    ChainClosed(isa, es, k, q);
    var t := BeforeChain(w, k, p, n, s, c.0);
    OpenedIs(w, es, k, s);
    if Opened(k, s).Some? {
      var x := Opened(k, s).value;
      ChainGives(w, isa, es, k, q, t);
      if Method(es, x.0).Some? {
        var f := Method(es, x.0).value;
        CallAgrees(w, f, k + 1, t.(stack := All(q, t)), s.(stack := x.1));
        ChainPend(isa, es, k, q);
      }
    }
  }

  lemma ChainPend(isa: Isa, es: seq<Impl>, k: nat, p: Pend)
    requires es != []
    ensures Chain(isa, es, k, p).1 == None
    decreases es
  {
    if |es| > 1 {
      ChainPend(isa, es[1..], k, None);
    }
  }

  // ----- ARM64 -----

  ghost predicate DistinctIds(es: seq<Impl>) {
    forall i, j :: 0 <= i < j < |es| ==> es[i].id != es[j].id
  }

  /** The code of the call refines the eager machine, in every world and every state. */
  ghost predicate CallRight(isa: Isa, es: seq<Impl>, k: nat) {
    forall w: World, p: Pend, n: NState, s: XState :: Refines(p, n, s) ==> InStep(isa, w, IfaceCall(es, k), p, n, s)
  }

  /** The last value is always pending when the chain starts. On x86-64 the first conditional
      jump flushes it for all arms; on ARM64 the first arm's call does, for that arm alone. */
  lemma CallRightExactly(isa: Isa, es: seq<Impl>, k: nat)
    requires DistinctIds(es) && IdsFit(es) && (isa.Arm64? ==> forall i :: 0 <= i < |es| ==> es[i].id < 0x1000)
    ensures CallRight(isa, es, k) <==> isa.X64? || |es| <= 1
  {
    if isa.X64? || |es| <= 1 {
      forall w: World, p: Pend, n: NState, s: XState | Refines(p, n, s)
        ensures InStep(isa, w, IfaceCall(es, k), p, n, s)
      {
        IfaceRefines(isa, w, es, k, p, n, s);
      }
    } else {
      var w, n, s := SecondFails(es, k);
      assert Refines(None, n, s) && !InStep(isa, w, IfaceCall(es, k), None, n, s);
    }
  }

  /** A value of the second type: the method is called without its last argument. */
  lemma SecondFails(es: seq<Impl>, k: nat) returns (w: World, n: NState, s: XState)
    requires DistinctIds(es) && IdsFit(es) && |es| >= 2
    ensures Refines(None, n, s) && !InStep(Arm64, w, IfaceCall(es, k), None, n, s)
  {
    hide ExecAll, Closed, OpPop, Peek, Poke, SaveCode, RestoreCode, Chain, Opened, Dispatched, Refines;
    w := World(0, (f, args, m) => Some(Reply([], m)), (f, m) => (0, 0, 0));
    s, n := Boxed(es[1].id, k);
    var q := RestoreCode(k, Some(RDX)).1;
    ChainClosed(Arm64, es, k, q);
    var t := BeforeChain(w, k, None, n, s, Chain(Arm64, es, k, q).0);
    OpenedIs(w, es, k, s);
    assert Method(es, es[1].id) == Some(es[1].f) by { assert es[1..][0] == es[1]; }
    assert Called(w, es[1].f, k + 1, s.(stack := Opened(k, s).value.1)).Some?;
    LastPending(k);
    SecondArm(w, es, k, q, t);
  }

  /** A stack of an interface value of this type and k arguments. */
  lemma Boxed(id: int, k: nat) returns (s: XState, n: NState)
    requires 0 <= id < HALF32
    ensures Refines(None, n, s) && Opened(k, s).Some?
    ensures Opened(k, s).value.0 == id && |Opened(k, s).value.1| == k + 1
  {
    hide Peek, Poke;
    var mem := Poke(map[], 8, id, WORD);
    WordBack(map[], 8, id);
    s := XState([8] + seq(k, _ => 0), [], mem);
    n := NState(Regs(0, 0, 0), s.stack, [], Unknown, [], mem);
    assert s.stack + [] == s.stack;
  }

  /** One value short, the second arm's call finds too few arguments. */
  lemma SecondArm(w: World, es: seq<Impl>, k: nat, p: Pend, n: NState)
    requires DistinctIds(es) && IdsFit(es) && |es| >= 2 && p.Some?
    requires n.regs.rcx == es[1].id && |All(p, n)| == k + 1
    ensures ExecAll(w, Chain(Arm64, es, k, p).0, n) == None
  {
    hide ExecAll, Closed, Chain, Arm;
    var rest := Chain(Arm64, es[1..], k, None).0;
    ChainIs(es, k, p);
    ChainClosed(Arm64, es[1..], k, None);
    ArmGives(w, Arm64, es[0], k, p, rest, n);
    var u := n.(flags := Compared(SignedWord(n.regs.rcx), es[0].id));
    ChainGives(w, Arm64, es[1..], k, None, u);
    assert u.stack + [] == u.stack && |u.stack| == k;
  }

  lemma ChainIs(es: seq<Impl>, k: nat, p: Pend)
    requires es != []
    ensures Chain(Arm64, es, k, p).0
         == Arm(Arm64, es[0], k, p, |Chain(Arm64, es[1..], k, None).0|) + Chain(Arm64, es[1..], k, None).0
  {
  }

  lemma LastPending(k: nat)
    ensures RestoreCode(k, Some(RDX)).1.Some?
    decreases k
  {
    if k > 0 {
      RestorePend(k - 1);
    }
  }

  lemma {:induction false} RestorePend(k: nat)
    ensures RestoreCode(k, Some(RAX)).1 == Some(RAX)
    decreases k
  {
    if k > 0 {
      RestorePend(k - 1);
    }
  }
}
