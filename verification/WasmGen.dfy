/** The code generator object: it appends to its output and pushes and pops its block stack.
    Every method is proved against the functions of `Stackify`. */
module WasmGen {
  import opened Ir
  import opened Wasm
  import opened Stackify

  lemma TOpsAppend(a: seq<WOp>, b: seq<WOp>)
    ensures TOps(a + b) == TOps(a) + TOps(b)
  {
  }

  lemma Rest(code: seq<Inst>, i: nat, end: nat, n: nat)
    requires i + n <= end <= |code|
    ensures code[i..end][n..] == code[i + n..end]
  {
  }

  lemma Part(code: seq<Inst>, i: nat, end: nat, a: nat, b: nat)
    requires a <= b && i + b <= end <= |code|
    ensures code[i..end][a..b] == code[i + a..i + b]
  {
    var s, t := code[i..end][a..b], code[i + a..i + b];
    assert forall k :: 0 <= k < b - a ==> s[k] == code[i + a + k] == t[k];
  }

  lemma {:induction false} FindFar(s: seq<Inst>, l: int, n: nat)
    requires n <= |s| && forall j :: 0 <= j < n ==> s[j] != Label(l)
    ensures FindLabel(s, l) == if FindLabel(s[n..], l) < 0 then -1 else n + FindLabel(s[n..], l)
  {
    if n > 0 {
      FindFar(s[1..], l, n - 1);
      assert s[1..][n - 1..] == s[n..];
    }
  }

  /** The position of the first definition of l in code[from..end], or -1. */
  method FindLabelIn(code: seq<Inst>, from: nat, end: nat, l: int) returns (p: int)
    requires from <= end <= |code|
    ensures p == if FindLabel(code[from..end], l) < 0 then -1 else from + FindLabel(code[from..end], l)
  {
    ghost var s := code[from..end];
    var j := from;
    while j < end
      invariant from <= j <= end
      invariant forall k :: 0 <= k < j - from ==> s[k] != Label(l)
    {
      assert s[j - from] == code[j];
      if code[j] == Label(l) {
        FindFar(s, l, j - from);
        return j;
      }
      j := j + 1;
    }
    FindFar(s, l, |s|);
    p := -1;
  }

  /** Whether the jump at jumpPos is the test of a short-circuit operator: its target, its
      end label and the position of the jump to the end. */
  method DetectShortCircuit(code: seq<Inst>, jumpPos: nat, end: nat)
    returns (target: int, endLabel: int, jmpToEnd: nat, ok: bool)
    requires jumpPos < end <= |code| && (code[jumpPos].JmpIf? || code[jumpPos].JmpIfNot?)
    ensures ok <==> DetectShort(code[jumpPos..end]).Some?
    ensures ok ==> target == code[jumpPos].l && endLabel == DetectShort(code[jumpPos..end]).value.end
                   && jmpToEnd + 1 == jumpPos + DetectShort(code[jumpPos..end]).value.at
  {
    target, endLabel, jmpToEnd, ok := code[jumpPos].l, 0, 0, false;
    ghost var s := code[jumpPos..end];
    Rest(code, jumpPos, end, 1);
    var t := FindLabelIn(code, jumpPos + 1, end, target);
    assert t >= 0 ==> t == jumpPos + 1 + FindLabel(s[1..], target);
    if t < 0 || t + 2 >= end {
      return;
    }
    assert s[t + 1 - jumpPos] == code[t + 1] && s[t + 2 - jumpPos] == code[t + 2] && s[t - 1 - jumpPos] == code[t - 1];
    if (!code[t + 1].ConstBool? && !code[t + 1].ConstI64?) || !code[t + 2].Label? {
      return;
    }
    endLabel := code[t + 2].l;
    if code[t - 1] == Jmp(endLabel) {
      jmpToEnd, ok := t - 1, true;
    }
  }

  lemma {:induction false} LastNone(s: seq<Inst>, l: int)
    requires forall j :: 0 <= j < |s| ==> s[j] != Jmp(l)
    ensures LastJmp(s, l) == -1
  {
    if s != [] {
      LastNone(s[..|s| - 1], l);
    }
  }

  lemma {:induction false} LastIs(s: seq<Inst>, l: int, k: nat)
    requires k < |s| && s[k] == Jmp(l) && forall j :: k < j < |s| ==> s[j] != Jmp(l)
    ensures LastJmp(s, l) == k
    decreases |s|
  {
    if k < |s| - 1 {
      LastIs(s[..|s| - 1], l, k);
    }
  }

  /** The label after the last jump back to the loop. */
  method FindBreakLabel(code: seq<Inst>, loopStart: nat, end: nat, loopLabel: int) returns (b: int)
    requires loopStart < end <= |code|
    ensures b == FindBreak(code[loopStart + 1..end], loopLabel)
  {
    var last := -1;
    ghost var s, o := code[loopStart + 1..end], loopStart + 1;
    var j := loopStart + 1;
    while j < end
      invariant o <= j <= end
      invariant last == -1 || (o <= last < j && s[last - o] == Jmp(loopLabel))
      invariant forall k :: 0 <= k < j - o && (last == -1 || k > last - o) ==> s[k] != Jmp(loopLabel)
    {
      assert s[j - o] == code[j];
      if code[j] == Jmp(loopLabel) {
        last := j;
      }
      j := j + 1;
    }
    if last < 0 {
      LastNone(s, loopLabel);
    } else {
      LastIs(s, loopLabel, last - o);
    }
    if last >= 0 && last + 1 < end {
      assert s[last + 1 - o] == code[last + 1];
      if code[last + 1].Label? {
        return code[last + 1].l;
      }
    }
    b := -1;
  }

  // ----- pass 1 -----

  /** The labels before position i. */
  function Before(s: seq<Inst>, i: nat): set<int>
    requires i <= |s|
  {
    set j | 0 <= j < i && s[j].Label? :: s[j].l
  }

  function Kind(s: seq<Inst>, i: nat, k: Kinds): Kinds
    requires i < |s|
  {
    if !IsJump(s[i]) then k
    else if s[i].l in Before(s, i) then k.(headers := k.headers + {s[i].l})
    else k.(targets := k.targets + {s[i].l})
  }

  lemma ClassifyNext(s: seq<Inst>, i: nat, k: Kinds)
    requires i < |s|
    ensures Classify(s[i..], Before(s, i), k) == Classify(s[i + 1..], Before(s, i + 1), Kind(s, i, k))
  {
    var t := s[i..];
    assert t[0] == s[i] && t[1..] == s[i + 1..];
    assert Before(s, i + 1) == Before(s, i) + (if s[i].Label? then {s[i].l} else {});
    assert Before(s, i) + {} == Before(s, i);
  }

  /** The first definition of the label decides whether the jump at i goes back. */
  lemma Backward(s: seq<Inst>, i: nat, l: int, p: int)
    requires i < |s| && p == FindLabel(s, l) && s[i] != Label(l)
    ensures l in Before(s, i) <==> 0 <= p <= i
  {
    if j :| 0 <= j < i && s[j] == Label(l) {
      FoundBy(s, l, j);
    }
  }

  lemma {:induction false} FoundBy(s: seq<Inst>, l: int, j: nat)
    requires j < |s| && s[j] == Label(l)
    ensures 0 <= FindLabel(s, l) <= j
  {
    if j > 0 {
      FoundBy(s[1..], l, j - 1);
    }
  }

  // ----- the sort -----

  /** One step to the left of the element being inserted. */
  lemma InsertStep(sorted: seq<FwdTarget>, n: nat, x: FwdTarget)
    requires 0 < n <= |sorted| && sorted[n - 1].pos < x.pos
    ensures Insert(sorted[..n], x) == Insert(sorted[..n - 1], x) + [sorted[n - 1]]
  {
    assert sorted[..n][..n - 1] == sorted[..n - 1];
  }

  /** Move element si to the left, past those that stand nearer. */
  method MoveLeft(xs: seq<FwdTarget>, si: nat) returns (r: seq<FwdTarget>)
    requires si < |xs|
    ensures |r| == |xs| && r[..si + 1] == Insert(xs[..si], xs[si]) && r[si + 1..] == xs[si + 1..]
  {
    hide Insert;
    r := xs;
    ghost var sorted, x := xs[..si], xs[si];
    var sj := si;
    assert sorted[..si] == sorted;
    while sj > 0 && r[sj].pos > r[sj - 1].pos
      invariant 0 <= sj <= si && |r| == |xs|
      invariant r[sj] == x && r[..sj] == sorted[..sj] && r[sj + 1..si + 1] == sorted[sj..]
      invariant r[si + 1..] == xs[si + 1..]
      invariant Insert(sorted, x) == Insert(sorted[..sj], x) + sorted[sj..]
    {
      InsertStep(sorted, sj, x);
      Shift(Insert(sorted[..sj - 1], x), sorted, sj);
      ghost var before := r;
      var tmp := r[sj];
      r := r[sj := r[sj - 1]];
      r := r[sj - 1 := tmp];
      Swapped(before, r, sorted, sj, si);
      sj := sj - 1;
    }
    Placed(r, sorted, x, sj, si);
  }

  /** Insertion sort by position, the furthest first. */
  method SortTargets(xs: seq<FwdTarget>) returns (r: seq<FwdTarget>)
    ensures r == SortFurthest(xs)
  {
    r := xs;
    if xs == [] {
      return;
    }
    var si := 1;
    SortOne(xs);
    while si < |xs|
      invariant 1 <= si <= |xs| == |r|
      invariant r[..si] == SortFurthest(xs[..si]) && r[si..] == xs[si..]
    {
      assert r[si] == r[si..][0] == xs[si];
      assert xs[si + 1..] == r[si..][1..] == r[si + 1..];
      r := MoveLeft(r, si);
      Grown(xs, si);
      si := si + 1;
    }
    assert xs[..si] == xs && r[..si] == r;
  }

  lemma SortOne(xs: seq<FwdTarget>)
    requires xs != []
    ensures SortFurthest(xs[..1]) == xs[..1]
  {
    assert xs[..1][..0] == [];
  }

  lemma Grown(xs: seq<FwdTarget>, n: nat)
    requires n < |xs|
    ensures SortFurthest(xs[..n + 1]) == Insert(SortFurthest(xs[..n]), xs[n])
  {
    assert xs[..n + 1][..n] == xs[..n];
  }

  lemma Shift(a: seq<FwdTarget>, sorted: seq<FwdTarget>, sj: nat)
    requires 0 < sj <= |sorted|
    ensures a + [sorted[sj - 1]] + sorted[sj..] == a + sorted[sj - 1..]
  {
  }

  lemma Swapped(a: seq<FwdTarget>, b: seq<FwdTarget>, sorted: seq<FwdTarget>, sj: nat, si: nat)
    requires 0 < sj <= si == |sorted| < |a|
    requires b == a[sj := a[sj - 1]][sj - 1 := a[sj]]
    requires a[..sj] == sorted[..sj] && a[sj + 1..si + 1] == sorted[sj..]
    ensures b[..sj - 1] == sorted[..sj - 1] && b[sj..si + 1] == sorted[sj - 1..] && b[si + 1..] == a[si + 1..]
  {
    assert a[sj - 1] == a[..sj][sj - 1] == sorted[sj - 1];
    assert b[sj..si + 1] == [b[sj]] + a[sj + 1..si + 1];
    assert b[..sj - 1] == a[..sj][..sj - 1] == sorted[..sj][..sj - 1];
  }

  lemma Placed(r: seq<FwdTarget>, sorted: seq<FwdTarget>, x: FwdTarget, sj: nat, si: nat)
    requires sj <= si == |sorted| < |r| && r[sj] == x && r[..sj] == sorted[..sj] && r[sj + 1..si + 1] == sorted[sj..]
    requires Insert(sorted, x) == Insert(sorted[..sj], x) + sorted[sj..]
    requires sj > 0 ==> r[sj - 1].pos >= x.pos
    ensures r[..si + 1] == Insert(sorted, x)
  {
    assert sj > 0 ==> r[..sj][sj - 1] == sorted[..sj][sj - 1] == r[sj - 1];
    assert Insert(sorted[..sj], x) == sorted[..sj] + [x];
    assert r[..si + 1] == r[..sj] + [r[sj]] + r[sj + 1..si + 1];
  }

  lemma ReloadsHere(code: seq<Inst>, i: nat, end: nat)
    requires i <= end <= |code| && (i < end ==> !code[i].Label?)
    ensures Reloads(code[i..end]) <==> i < end && (code[i].Dup? || code[i].Drop?)
  {
    if i < end {
      assert code[i..end][0] == code[i];
    }
  }

  /** Saving result i leaves the saving of the results before it. */
  lemma SavedOne(fi: FuncInfo, i: nat, before: seq<Tok>, after: seq<Tok>)
    requires after == before + TOps([I32Const(SCRATCH + 4 * i)]) + TOps([LSet(fi.params)]) + TOps([LSet(fi.params + 1)])
                     + TOps([LGet(fi.params)]) + TOps([LGet(fi.params + 1)]) + TOps([I32Store(0)])
    ensures after + TOps(SaveResults(fi, i)) == before + TOps(SaveResults(fi, i + 1))
  {
    var one := [I32Const(SCRATCH + 4 * i), LSet(fi.params), LSet(fi.params + 1),
                LGet(fi.params), LGet(fi.params + 1), I32Store(0)];
    TOpsAppend(one, SaveResults(fi, i));
    assert after == before + TOps(one);
  }

  lemma LoadedOne(i: nat, before: seq<Tok>, after: seq<Tok>)
    requires after == before + TOps([I32Const(SCRATCH + 4 * i)]) + TOps([I32Load(0)])
    ensures forall b :: before == b + TOps(LoadResults(i)) ==> after == b + TOps(LoadResults(i + 1))
  {
    var one := [I32Const(SCRATCH + 4 * i), I32Load(0)];
    assert after == before + TOps(one);
    TOpsAppend(LoadResults(i), one);
    assert forall b :: b + TOps(LoadResults(i)) + TOps(one) == b + TOps(LoadResults(i) + one);
  }

  lemma CopiedOne(i: nat, start: seq<Tok>, before: seq<Tok>, after: seq<Tok>)
    requires before == start + TOps(CopyParams(i))
    requires after == before + TOps([GetSP]) + TOps([LGet(i)]) + TOps([I32Store(4 * i)])
    ensures after == start + TOps(CopyParams(i + 1))
  {
    var one := [GetSP, LGet(i), I32Store(4 * i)];
    assert after == before + TOps(one);
    TOpsAppend(CopyParams(i), one);
  }

  lemma PoppedFrame(fi: FuncInfo, before: seq<Tok>, after: seq<Tok>)
    requires after == before + TOps([GetSP]) + TOps([I32Const(4 * fi.slots)]) + TOps([I32Bin(IAdd)]) + TOps([SetSP])
    ensures after == before + TOps(PopFrame(fi))
  {
  }

  lemma Returned(fi: FuncInfo, start: seq<Tok>, before: seq<Tok>, after: seq<Tok>)
    requires before == (if fi.slots > 0 then
      start + TOps(SaveResults(fi, fi.rc)) + TOps(PopFrame(fi)) + TOps(LoadResults(fi.rc)) else start)
    requires after == before + TOps([Ret])
    ensures after == start + TOps(ReturnCode(fi))
  {
    hide TOps, SaveResults, PopFrame, LoadResults;
    if fi.slots > 0 {
      var a, b, c := SaveResults(fi, fi.rc), PopFrame(fi), LoadResults(fi.rc);
      TOpsAppend(a, b);
      TOpsAppend(a + b, c);
      TOpsAppend(a + b + c, [Ret]);
    } else {
      assert [] + [Ret] == [Ret];
    }
  }

  class WasmGen {
    const fi: FuncInfo
    var buf: seq<Tok>
    var blockStack: seq<Ctrl>
    var dead: bool

    constructor (fi: FuncInfo)
      ensures this.fi == fi && Cur() == Gen([], [], false)
    {
      this.fi := fi;
      buf, blockStack, dead := [], [], false;
    }

    function Cur(): Gen
      reads this
    {
      Gen(buf, blockStack, dead)
    }

    method Emit(t: Tok)
      modifies `buf
      ensures buf == old(buf) + [t]
    {
      buf := buf + [t];
    }

    method Op(o: WOp)
      modifies `buf
      ensures buf == old(buf) + TOps([o])
    {
      buf := buf + [TOp(o)];
      assert TOps([o]) == [TOp(o)];
    }

    method FindBlockDepth(l: int) returns (d: int)
      ensures d == BlockDepth(blockStack, l)
    {
      var i := |blockStack| - 1;
      assert blockStack[..|blockStack|] == blockStack;
      while i >= 0
        invariant -1 <= i < |blockStack|
        invariant var e := BlockDepth(blockStack[..i + 1], l);
          BlockDepth(blockStack, l) == if e < 0 then -1 else |blockStack| - 1 - i + e
      {
        assert blockStack[..i + 1][..i] == blockStack[..i];
        if blockStack[i].lab == l {
          return |blockStack| - 1 - i;
        }
        i := i - 1;
      }
      d := -1;
    }

    /** Every jump still finds its block, and those that find one at this depth, and no
        others, now find a live one. */
    method MarkLiveBreak(depth: nat)
      modifies `blockStack
      ensures blockStack == MarkLive(old(blockStack), depth)
      ensures forall l :: BlockDepth(blockStack, l) == BlockDepth(old(blockStack), l)
      ensures forall l :: LiveAt(blockStack, l) <==> LiveAt(old(blockStack), l) || BlockDepth(old(blockStack), l) == depth
    {
      forall l: int
        ensures BlockDepth(MarkLive(blockStack, depth), l) == BlockDepth(blockStack, l)
        ensures LiveAt(MarkLive(blockStack, depth), l) <==> LiveAt(blockStack, l) || BlockDepth(blockStack, l) == depth
      {
        MarkKeeps(blockStack, depth, l);
      }
      var idx := |blockStack| - 1 - depth;
      if 0 <= idx < |blockStack| {
        blockStack := blockStack[idx := blockStack[idx].(live := true)];
      }
    }

    /** The results go to the scratch area, the last one first. */
    method SaveToScratch()
      modifies `buf
      ensures buf == old(buf) + TOps(SaveResults(fi, fi.rc))
    {
      var i := fi.rc - 1;
      while i >= 0
        invariant -1 <= i < fi.rc
        invariant buf + TOps(SaveResults(fi, i + 1)) == old(buf) + TOps(SaveResults(fi, fi.rc))
      {
        ghost var before := buf;
        Op(I32Const(SCRATCH + 4 * i));
        Op(LSet(fi.params));
        Op(LSet(fi.params + 1));
        Op(LGet(fi.params));
        Op(LGet(fi.params + 1));
        Op(I32Store(0));
        SavedOne(fi, i, before, buf);
        i := i - 1;
      }
      assert buf + TOps(SaveResults(fi, 0)) == buf;
    }

    method ReloadFromScratch()
      modifies `buf
      ensures buf == old(buf) + TOps(LoadResults(fi.rc))
    {
      var i := 0;
      assert buf + TOps(LoadResults(0)) == buf;
      while i < fi.rc
        invariant 0 <= i <= fi.rc
        invariant buf == old(buf) + TOps(LoadResults(i))
      {
        ghost var before := buf;
        Op(I32Const(SCRATCH + 4 * i));
        Op(I32Load(0));
        LoadedOne(i, before, buf);
        i := i + 1;
      }
    }

    /** Save the results, pop the frame, reload them, return. */
    method CompileReturn()
      modifies this
      ensures Cur() == Gen(old(buf) + TOps(ReturnCode(fi)), old(blockStack), true)
    {
      if fi.slots > 0 {
        SaveToScratch();
        ghost var saved := buf;
        Op(GetSP);
        Op(I32Const(4 * fi.slots));
        Op(I32Bin(IAdd));
        Op(SetSP);
        PoppedFrame(fi, saved, buf);
        ReloadFromScratch();
      }
      ghost var before := buf;
      Op(Ret);
      dead := true;
      Returned(fi, old(buf), before, buf);
    }

    /** One instruction that is not a label or a jump. */
    method CompileInst(i: Inst)
      requires !i.Label? && !IsJump(i)
      modifies this
      ensures Cur() == Gen(old(buf) + TOps(PlainCode(fi, i)), old(blockStack), old(dead) || i.Return?)
    {
      match i
      case ConstI64(v) => Op(I32Const(v));
      case ConstBool(arg) => Op(I32Const(if arg != 0 then 1 else 0));
      case LocalGet(idx) =>
        Op(GetSP);
        Op(I32Load(4 * idx));
      case LocalSet(idx) =>
        Op(LSet(fi.params));
        Op(GetSP);
        Op(LGet(fi.params));
        Op(I32Store(4 * idx));
      case Drop => Op(WDrop);
      case Dup =>
        Op(LTee(fi.params));
        Op(LGet(fi.params));
      case Bin(op) => Op(I32Bin(IBinOf(op)));
      case Neg =>
        Op(LSet(fi.params));
        Op(I32Const(0));
        Op(LGet(fi.params));
        Op(I32Bin(ISub));
      case Not => Op(I32Eqz);
      case Return(_) => CompileReturn();
    }

    /** A whole function: make the frame, copy the parameters into it, then the body. */
    method CompileFunc(code: seq<Inst>)
      modifies this
      ensures Cur() == StackifyCode(fi, code, TOps(Prologue(fi)))
    {
      buf, blockStack, dead := [], [], false;
      if fi.slots > 0 {
        Op(GetSP);
        Op(I32Const(4 * fi.slots));
        Op(I32Bin(ISub));
        Op(SetSP);
      }
      ghost var frame := if fi.slots > 0 then [GetSP, I32Const(4 * fi.slots), I32Bin(ISub), SetSP] else [];
      assert buf == TOps(frame);
      var i := 0;
      while i < fi.params
        invariant 0 <= i <= fi.params && blockStack == [] && !dead
        invariant buf == TOps(frame) + TOps(CopyParams(i))
      {
        ghost var before := buf;
        Op(GetSP);
        Op(LGet(i));
        Op(I32Store(4 * i));
        CopiedOne(i, TOps(frame), before, buf);
        i := i + 1;
      }
      TOpsAppend(frame, CopyParams(fi.params));
      Stackify(code);
    }

    /** Pass 1 classifies the labels, pass 2 emits. */
    method Stackify(code: seq<Inst>)
      requires blockStack == [] && !dead
      modifies this
      ensures Cur() == StackifyCode(fi, code, old(buf))
    {
      var k := Kinds({}, {});
      var i := 0;
      assert Before(code, 0) == {} && code[0..] == code;
      while i < |code|
        invariant 0 <= i <= |code|
        invariant Classify(code, {}, Kinds({}, {})) == Classify(code[i..], Before(code, i), k)
        invariant Cur() == old(Cur())
      {
        ClassifyNext(code, i, k);
        if IsJump(code[i]) {
          var l := code[i].l;
          var p := FindLabelIn(code, 0, |code|, l);
          assert code[0..|code|] == code;
          Backward(code, i, l, p);
          if p >= 0 && p <= i {
            k := k.(headers := k.headers + {l});
          } else {
            k := k.(targets := k.targets + {l});
          }
        }
        i := i + 1;
      }
      assert code[0..|code|] == code;
      EmitStructured(code, 0, |code|, k);
    }

    /** Where the loop whose label is at i ends: at its break label, or with the range. */
    static method LoopEnd(code: seq<Inst>, i: nat, end: nat, brk: int) returns (e: nat)
      requires i < end <= |code| && code[i].Label?
      ensures e == i + LoopLength(code[i..end], brk) && e <= end
    {
      e := end;
      Rest(code, i, end, 1);
      if brk >= 0 {
        var p := FindLabelIn(code, i + 1, end, brk);
        if p >= 0 {
          e := p;
        }
      }
    }

    /** The forward targets of a range, in the order their first jumps stand. */
    static method CollectTargets(code: seq<Inst>, start: nat, end: nat, K: Kinds)
      returns (fwd: seq<FwdTarget>, excluded: set<int>)
      requires start <= end <= |code|
      ensures Scan(fwd, excluded) == PreScan(code[start..end], start, K, Scan([], {}))
    {
      hide PreScan, DetectShort, FindBreak, LoopLength, FindLabel;
      fwd, excluded := [], {};
      var pos := start;
      while pos < end
        invariant start <= pos <= end
        invariant PreScan(code[start..end], start, K, Scan([], {}))
               == PreScan(code[pos..end], pos, K, Scan(fwd, excluded))
      {
        var i := code[pos];
        ghost var s := code[pos..end];
        assert s[0] == i;
        Rest(code, pos, end, 1);
        PreScanNext(s, pos, K, Scan(fwd, excluded));
        if i.Label? && i.l in K.headers {
          var brk := FindBreakLabel(code, pos, end, i.l);
          var e := LoopEnd(code, pos, end, brk);
          Rest(code, pos, end, e - pos);
          pos := e;
          continue;
        }
        if i.JmpIf? || i.JmpIfNot? {
          var t, endLabel, _, ok := DetectShortCircuit(code, pos, end);
          if ok {
            excluded := excluded + {t, endLabel};
            pos := pos + 1;
            continue;
          }
        }
        if IsJump(i) && i.l !in excluded && i.l !in K.headers {
          var p := FindLabelIn(code, pos + 1, end, i.l);
          if p > pos {
            var dup := HasTarget(fwd, i.l);
            if !dup {
              fwd := fwd + [FwdTarget(i.l, p)];
            }
          }
        }
        pos := pos + 1;
      }
      PreScanEnd(code[end..end], end, K, Scan(fwd, excluded));
    }

    static method HasTarget(fwd: seq<FwdTarget>, l: int) returns (dup: bool)
      ensures dup <==> HasLabel(fwd, l)
    {
      dup := false;
      for i := 0 to |fwd|
        invariant forall j :: 0 <= j < i ==> fwd[j].lab != l
      {
        if fwd[i].lab == l {
          return true;
        }
      }
    }

    method Push(kind: CtrlKind, l: int, t: Tok)
      modifies this
      ensures Cur() == OpenBlockFor(old(Cur()), kind, l, t)
    {
      Emit(t);
      blockStack := blockStack + [Ctrl(kind, l, false)];
    }

    /** The end of the innermost block, if there is one. */
    method Pop() returns (live: bool)
      modifies this
      ensures Cur() == Drop2(old(Cur()))
      ensures live == (old(|blockStack|) >= 1 && old(blockStack)[old(|blockStack|) - 1].live)
    {
      live := false;
      if |blockStack| >= 1 {
        live := blockStack[|blockStack| - 1].live;
        Emit(TEnd);
        blockStack := blockStack[..|blockStack| - 1];
      }
    }

    /** After the end of a block. */
    method AfterEnd(live: bool)
      modifies this
      ensures Cur() == Settle(old(Cur()), live)
    {
      if dead && !live {
        Emit(TOp(Unreachable));
      } else {
        dead := false;
      }
    }

    /** A branch to the block of label l, if it is open. */
    method Jump(l: int, pre: seq<WOp>, conditional: bool)
      modifies this
      ensures Cur() == BranchGen(old(Cur()), l, pre, conditional)
    {
      if !dead {
        var d := FindBlockDepth(l);
        if d >= 0 {
          MarkLiveBreak(d);
          buf := buf + TOps(pre);
          Emit(TOp(if conditional then BrIf(d) else Br(d)));
          dead := !conditional;
        }
      }
    }

    /** A label that may close the innermost block; next is the position after it. */
    method CloseBlock(code: seq<Inst>, next: nat, end: nat)
      requires next <= end <= |code| && blockStack != []
      modifies this
      ensures Cur() == CloseLabel(fi, old(Cur()), code[next..end])
    {
      var wasDead := dead;
      var live := Pop();
      AfterEnd(live);
      assert PopBlock(old(Cur())) == Drop2(old(Cur()));
      if !(wasDead && !live) {
        ghost var closed := Cur();
        var peek := next;
        while peek < end && code[peek].Label?
          invariant next <= peek <= end && Cur() == closed
          invariant Reloads(code[next..end]) == Reloads(code[peek..end])
        {
          Rest(code, peek, end, 1);
          peek := peek + 1;
        }
        ReloadsHere(code, peek, end);
        if peek < end && (code[peek].Dup? || code[peek].Drop?) {
          assert TOps([LGet(fi.params)]) == [TOp(LGet(fi.params))];
          Op(LGet(fi.params));
        }
      }
    }

    /** A loop whose label is at i: its break block, the loop, its body. */
    method EmitLoop(code: seq<Inst>, i: nat, end: nat, K: Kinds) returns (e: nat)
      requires i < end <= |code| && code[i].Label? && code[i].l in K.headers
      modifies this
      ensures i < e <= end
      ensures forall x :: EmitFrom(fi, code[i..end], i, K, x, old(Cur())) == EmitFrom(fi, code[e..end], e, K, x, Cur())
      decreases end - i, 0
    {
      hide EmitFrom, EmitRange, FindBreak, LoopLength, Settle, Drop2;
      ghost var s, g := code[i..end], Cur();
      assert s[0] == code[i];
      Rest(code, i, end, 1);
      var brk := FindBreakLabel(code, i, end, code[i].l);
      Push(CtrlBlock, brk, TBlock);
      Push(CtrlLoop, code[i].l, TLoop);
      e := LoopEnd(code, i, end, brk);
      Rest(code, i, end, e - i);
      Part(code, i, end, 1, e - i);
      EmitStructured(code, i + 1, e, K);
      var _ := Pop();
      var live := Pop();
      AfterEnd(live);
      forall x: set<int>
        ensures EmitFrom(fi, s, i, K, x, g) == EmitFrom(fi, code[e..end], e, K, x, Cur())
      {
        EmitHeader(fi, s, i, K, x, g, brk, e - i);
      }
    }

    /** A short-circuit operator whose test is at i. */
    method EmitShortCircuit(code: seq<Inst>, i: nat, end: nat, K: Kinds, jmpToEnd: nat) returns (e: nat)
      requires i < end <= |code| && (code[i].JmpIf? || code[i].JmpIfNot?) && !dead
      requires DetectShort(code[i..end]).Some? && jmpToEnd + 1 == i + DetectShort(code[i..end]).value.at
      modifies this
      ensures i < e <= end
      ensures forall x :: EmitFrom(fi, code[i..end], i, K, x, old(Cur())) == EmitFrom(fi, code[e..end], e, K, x, Cur())
      decreases end - i, 0
    {
      hide EmitFrom, EmitRange, DetectShort;
      ghost var s, at, g := code[i..end], DetectShort(code[i..end]).value.at, Cur();
      assert s[0] == code[i];
      e := jmpToEnd + 4;
      Part(code, i, end, 1, at - 1);
      Rest(code, i, end, at + 3);
      var k := ConstArg(code[jmpToEnd + 2]);
      assert code[jmpToEnd + 2] == s[at + 1];
      Push(CtrlIf, -1, TIf);
      if code[i].JmpIf? {
        ghost var g1 := Cur();
        Emit(TOp(I32Const(k)));
        Emit(TElse);
        assert Cur() == Put(g1, [TOp(I32Const(k)), TElse]);
        EmitStructured(code, i + 1, jmpToEnd, K);
      } else {
        EmitStructured(code, i + 1, jmpToEnd, K);
        ghost var g2 := Cur();
        Emit(TElse);
        Emit(TOp(I32Const(k)));
        assert Cur() == Put(g2, [TElse, TOp(I32Const(k))]);
      }
      var _ := Pop();
      forall x: set<int>
        ensures EmitFrom(fi, s, i, K, x, g) == EmitFrom(fi, code[e..end], e, K, x, Cur())
      {
        EmitDetected(fi, s, i, K, x, g, at, DetectShort(s).value.end);
      }
    }

    /** A range of the code: open the blocks of its forward targets, then emit it. */
    method EmitStructured(code: seq<Inst>, start: nat, end: nat, K: Kinds)
      requires start <= end <= |code|
      modifies this
      ensures Cur() == EmitRange(fi, code[start..end], start, K, old(Cur()))
      decreases end - start, 2
    {
      var fwd, excluded := CollectTargets(code, start, end, K);
      var sorted := SortTargets(fwd);
      OpenBlocks(sorted);
      var i := start;
      ghost var goal := EmitRange(fi, code[start..end], start, K, old(Cur()));
      while i < end
        invariant start <= i <= end
        invariant goal == EmitFrom(fi, code[i..end], i, K, excluded, Cur())
      {
        i := EmitOne(code, i, end, K, excluded);
      }
    }

    method OpenBlocks(ts: seq<FwdTarget>)
      modifies this
      ensures Cur() == OpenAll(old(Cur()), ts)
    {
      assert ts[0..] == ts;
      for i := 0 to |ts|
        invariant OpenAll(old(Cur()), ts) == OpenAll(Cur(), ts[i..])
      {
        assert ts[i..][1..] == ts[i + 1..];
        Push(CtrlBlock, ts[i].lab, TBlock);
      }
    }

    /** The instruction at i, or the whole loop or short circuit that starts there. */
    method EmitOne(code: seq<Inst>, i: nat, end: nat, K: Kinds, excluded: set<int>) returns (e: nat)
      requires i < end <= |code|
      modifies this
      ensures i < e <= end
      ensures EmitFrom(fi, code[i..end], i, K, excluded, old(Cur())) == EmitFrom(fi, code[e..end], e, K, excluded, Cur())
      decreases end - i, 1
    {
      ghost var s := code[i..end];
      assert s[0] == code[i];
      Rest(code, i, end, 1);
      e := i + 1;
      match code[i]
      case Label(l) =>
        if l in K.headers {
          e := EmitLoop(code, i, end, K);
        } else if l in K.targets && l !in excluded {
          var depth := FindBlockDepth(l);
          if depth >= 0 {
            CloseBlock(code, i + 1, end);
          }
        }
      case Jmp(l) => Jump(l, [], false);
      case JmpIf(l) =>
        var _, _, jmpToEnd, ok := DetectShortCircuit(code, i, end);
        if !dead && ok {
          e := EmitShortCircuit(code, i, end, K, jmpToEnd);
        } else {
          Jump(l, [], true);
        }
      case JmpIfNot(l) =>
        var _, _, jmpToEnd, ok := DetectShortCircuit(code, i, end);
        if !dead && ok {
          e := EmitShortCircuit(code, i, end, K, jmpToEnd);
        } else {
          Jump(l, [I32Eqz], true);
        }
      case inst =>
        if !dead {
          CompileInst(inst);
        }
    }
  }
}
