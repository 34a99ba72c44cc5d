/** The stackifier: what the WebAssembly backend emits for any labelled code, as
    functions on the code from the current position to the end of the current range. */
module Stackify {
  import opened Ir
  import opened Wasm

  datatype CtrlKind = CtrlBlock | CtrlLoop | CtrlIf

  /** An open block, the label it stands for, and whether a live branch targets it. */
  datatype Ctrl = Ctrl(kind: CtrlKind, lab: int, live: bool)

  /** The emitter's state: output so far, open blocks (innermost last), reachability. */
  datatype Gen = Gen(buf: seq<Tok>, blocks: seq<Ctrl>, dead: bool)

  // ----- searches -----

  /** The first definition of label l, or -1. */
  function FindLabel(s: seq<Inst>, l: int): (r: int)
    ensures -1 <= r < |s|
    ensures r >= 0 ==> s[r] == Label(l)
  {
    if s == [] then -1
    else if s[0] == Label(l) then 0
    else
      var r := FindLabel(s[1..], l);
      if r < 0 then -1 else r + 1
  }

  /** The last unconditional jump to l, or -1. */
  function LastJmp(s: seq<Inst>, l: int): (r: int)
    ensures -1 <= r < |s|
  {
    if s == [] then -1
    else if s[|s| - 1] == Jmp(l) then |s| - 1
    else LastJmp(s[..|s| - 1], l)
  }

  /** The label right after the last jump back to the loop, or -1; s starts after the loop's label. */
  function FindBreak(s: seq<Inst>, loop: int): int {
    var j := LastJmp(s, loop);
    if 0 <= j && j + 1 < |s| && s[j + 1].Label? then s[j + 1].l else -1
  }

  /** The length of a loop whose label is s[0], up to its break label or the end of the range. */
  function LoopLength(s: seq<Inst>, brk: int): (n: nat)
    requires s != []
    ensures 1 <= n <= |s|
  {
    if brk >= 0 && FindLabel(s[1..], brk) >= 0 then 1 + FindLabel(s[1..], brk) else |s|
  }

  /** A short circuit found at s[0]: where its target label stands, and its end label. */
  datatype ShortInfo = ShortInfo(at: nat, end: int)

  function ConstArg(i: Inst): int {
    if i.ConstBool? then i.arg else 0
  }

  function DetectShort(s: seq<Inst>): (r: Option<ShortInfo>)
    requires s != [] && (s[0].JmpIf? || s[0].JmpIfNot?)
    ensures r.Some? ==> 2 <= r.value.at && r.value.at + 2 < |s|
  {
    var t := FindLabel(s[1..], s[0].l) + 1;
    if t < 1 || t + 2 >= |s| then None
    else if !s[t + 1].ConstBool? && !s[t + 1].ConstI64? then None
    else if !s[t + 2].Label? then None
    else if s[t - 1] == Jmp(s[t + 2].l) then Some(ShortInfo(t, s[t + 2].l))
    else None
  }

  /** The branch depth of a label among the open blocks, or -1. */
  function BlockDepth(blocks: seq<Ctrl>, l: int): (d: int)
    ensures -1 <= d < |blocks|
  {
    if blocks == [] then -1
    else if blocks[|blocks| - 1].lab == l then 0
    else
      var d := BlockDepth(blocks[..|blocks| - 1], l);
      if d < 0 then -1 else d + 1
  }

  function MarkLive(blocks: seq<Ctrl>, d: nat): (r: seq<Ctrl>)
    ensures |r| == |blocks|
  {
    var k := |blocks| - 1 - d;
    if 0 <= k < |blocks| then blocks[k := blocks[k].(live := true)] else blocks
  }

  /** A live branch goes to the block that a jump to l would find. */
  predicate LiveAt(blocks: seq<Ctrl>, l: int) {
    var d := BlockDepth(blocks, l);
    d >= 0 && blocks[|blocks| - 1 - d].live
  }

  lemma {:induction false} MarkKeeps(blocks: seq<Ctrl>, d: nat, l: int)
    ensures BlockDepth(MarkLive(blocks, d), l) == BlockDepth(blocks, l)
    ensures LiveAt(MarkLive(blocks, d), l) <==> LiveAt(blocks, l) || BlockDepth(blocks, l) == d
    decreases |blocks|
  {
    if blocks != [] {
      var n := |blocks| - 1;
      var top, rest := blocks[n], blocks[..n];
      if d == 0 {
        assert MarkLive(blocks, d)[..n] == rest;
      } else {
        assert MarkLive(blocks, d)[..n] == MarkLive(rest, d - 1);
        MarkKeeps(rest, d - 1, l);
      }
    }
  }

  /** The first instruction that is not a label is DUP or DROP. */
  predicate Reloads(s: seq<Inst>) {
    s != [] && (s[0].Dup? || s[0].Drop? || (s[0].Label? && Reloads(s[1..])))
  }

  // ----- pass 1: which labels are loop headers, which are targets of forward jumps -----

  datatype Kinds = Kinds(headers: set<int>, targets: set<int>)

  /** seen holds the labels before s. */
  function Classify(s: seq<Inst>, seen: set<int>, k: Kinds): Kinds {
    if s == [] then k
    else if s[0].Label? then Classify(s[1..], seen + {s[0].l}, k)
    else if IsJump(s[0]) then
      var l := s[0].l;
      Classify(s[1..], seen,
               if l in seen then k.(headers := k.headers + {l}) else k.(targets := k.targets + {l}))
    else Classify(s[1..], seen, k)
  }

  // ----- pass 2, phase 1: the forward targets of a range -----

  datatype FwdTarget = FwdTarget(lab: int, pos: nat)

  datatype Scan = Scan(fwd: seq<FwdTarget>, excluded: set<int>)

  predicate HasLabel(fwd: seq<FwdTarget>, l: int) {
    exists i :: 0 <= i < |fwd| && fwd[i].lab == l
  }

  /** at is the position of s[0]. Loops are skipped; short circuits are excluded. */
  function PreScan(s: seq<Inst>, at: nat, K: Kinds, a: Scan): Scan
    decreases |s|
  {
    if s == [] then a
    else if s[0].Label? && s[0].l in K.headers then
      var n := LoopLength(s, FindBreak(s[1..], s[0].l));
      PreScan(s[n..], at + n, K, a)
    else if (s[0].JmpIf? || s[0].JmpIfNot?) && DetectShort(s).Some? then
      PreScan(s[1..], at + 1, K, a.(excluded := a.excluded + {s[0].l, DetectShort(s).value.end}))
    else if IsJump(s[0]) && s[0].l !in a.excluded && s[0].l !in K.headers then
      var p := FindLabel(s[1..], s[0].l);
      PreScan(s[1..], at + 1, K,
              if p >= 0 && !HasLabel(a.fwd, s[0].l) then a.(fwd := a.fwd + [FwdTarget(s[0].l, at + 1 + p)]) else a)
    else PreScan(s[1..], at + 1, K, a)
  }

  /** Insertion sort, furthest position first. */
  function Insert(sorted: seq<FwdTarget>, x: FwdTarget): (r: seq<FwdTarget>)
    ensures |r| == |sorted| + 1
  {
    var n := |sorted|;
    if n == 0 || sorted[n - 1].pos >= x.pos then sorted + [x]
    else Insert(sorted[..n - 1], x) + [sorted[n - 1]]
  }

  function SortFurthest(xs: seq<FwdTarget>): (r: seq<FwdTarget>)
    ensures |r| == |xs|
  {
    if xs == [] then [] else Insert(SortFurthest(xs[..|xs| - 1]), xs[|xs| - 1])
  }

  // ----- pass 2, phase 2: emission -----

  function Put(g: Gen, ts: seq<Tok>): Gen {
    g.(buf := g.buf + ts)
  }

  function TOps(os: seq<WOp>): (r: seq<Tok>)
    ensures |r| == |os|
  {
    seq(|os|, i requires 0 <= i < |os| => TOp(os[i]))
  }

  function OpenBlockFor(g: Gen, kind: CtrlKind, l: int, t: Tok): Gen {
    Gen(g.buf + [t], g.blocks + [Ctrl(kind, l, false)], g.dead)
  }

  function OpenAll(g: Gen, ts: seq<FwdTarget>): (r: Gen)
    ensures |r.blocks| == |g.blocks| + |ts|
    decreases |ts|
  {
    if ts == [] then g else OpenAll(OpenBlockFor(g, CtrlBlock, ts[0].lab, TBlock), ts[1..])
  }

  /** After the end of a block: still dead unless a live branch targets it. */
  function Settle(g: Gen, live: bool): Gen {
    if g.dead && !live then Put(g, [TOp(Unreachable)]) else g.(dead := false)
  }

  function PopBlock(g: Gen): Gen
    requires g.blocks != []
  {
    Gen(g.buf + [TEnd], g.blocks[..|g.blocks| - 1], g.dead)
  }

  /** Close the innermost block, at a label; rest is what follows the label. */
  function CloseLabel(fi: FuncInfo, g: Gen, rest: seq<Inst>): Gen
    requires g.blocks != []
  {
    var live := g.blocks[|g.blocks| - 1].live;
    var h := Settle(PopBlock(g), live);
    if !(g.dead && !live) && Reloads(rest) then Put(h, [TOp(LGet(fi.params))]) else h
  }

  function BranchGen(g: Gen, l: int, pre: seq<WOp>, conditional: bool): Gen {
    var d := BlockDepth(g.blocks, l);
    if g.dead || d < 0 then g
    else Gen(g.buf + TOps(pre) + [TOp(if conditional then BrIf(d) else Br(d))], MarkLive(g.blocks, d), !conditional)
  }

  /** Loops and short circuits emit their inside as a range of its own. */
  function EmitRange(fi: FuncInfo, s: seq<Inst>, at: nat, K: Kinds, g: Gen): (r: Gen)
    decreases |s|, 1
  {
    var a := PreScan(s, at, K, Scan([], {}));
    EmitFrom(fi, s, at, K, a.excluded, OpenAll(g, SortFurthest(a.fwd)))
  }

  function Drop2(g: Gen): Gen {
    if |g.blocks| >= 1 then PopBlock(g) else g
  }

  function EmitFrom(fi: FuncInfo, s: seq<Inst>, at: nat, K: Kinds, excluded: set<int>, g: Gen): (r: Gen)
    decreases |s|, 0
  {
    if s == [] then g
    else match s[0]
      case Label(l) =>
        if l in K.headers then
          var brk := FindBreak(s[1..], l);
          var n := LoopLength(s, brk);
          var g1 := OpenBlockFor(OpenBlockFor(g, CtrlBlock, brk, TBlock), CtrlLoop, l, TLoop);
          var g2 := Drop2(EmitRange(fi, s[1..n], at + 1, K, g1));
          var live := |g2.blocks| >= 1 && g2.blocks[|g2.blocks| - 1].live;
          EmitFrom(fi, s[n..], at + n, K, excluded, Settle(Drop2(g2), live))
        else if l in K.targets && l !in excluded && BlockDepth(g.blocks, l) >= 0 then
          EmitFrom(fi, s[1..], at + 1, K, excluded, CloseLabel(fi, g, s[1..]))
        else EmitFrom(fi, s[1..], at + 1, K, excluded, g)
      case Jmp(l) => EmitFrom(fi, s[1..], at + 1, K, excluded, BranchGen(g, l, [], false))
      case JmpIf(l) =>
        if !g.dead && DetectShort(s).Some? then
          var i := DetectShort(s).value;
          var g1 := OpenBlockFor(g, CtrlIf, -1, TIf);
          var g2 := Put(g1, [TOp(I32Const(ConstArg(s[i.at + 1]))), TElse]);
          var g3 := EmitRange(fi, s[1..i.at - 1], at + 1, K, g2);
          EmitFrom(fi, s[i.at + 3..], at + i.at + 3, K, excluded, Drop2(g3))
        else EmitFrom(fi, s[1..], at + 1, K, excluded, BranchGen(g, l, [], true))
      case JmpIfNot(l) =>
        if !g.dead && DetectShort(s).Some? then
          var i := DetectShort(s).value;
          var g1 := OpenBlockFor(g, CtrlIf, -1, TIf);
          var g2 := EmitRange(fi, s[1..i.at - 1], at + 1, K, g1);
          var g3 := Put(g2, [TElse, TOp(I32Const(ConstArg(s[i.at + 1])))]);
          EmitFrom(fi, s[i.at + 3..], at + i.at + 3, K, excluded, Drop2(g3))
        else EmitFrom(fi, s[1..], at + 1, K, excluded, BranchGen(g, l, [I32Eqz], true))
      case i =>
        EmitFrom(fi, s[1..], at + 1, K, excluded,
                 if g.dead then g else Gen(g.buf + TOps(PlainCode(fi, i)), g.blocks, i.Return?))
  }

  /** The whole body of a function, from an empty block stack. */
  function StackifyCode(fi: FuncInfo, code: seq<Inst>, buf: seq<Tok>): Gen {
    EmitRange(fi, code, 0, Classify(code, {}, Kinds({}, {})), Gen(buf, [], false))
  }

  // ----- one step -----

  lemma EmitDetected(fi: FuncInfo, s: seq<Inst>, at: nat, K: Kinds, excluded: set<int>, g: Gen, t: nat, end: int)
    requires s != [] && (s[0].JmpIf? || s[0].JmpIfNot?) && !g.dead
    requires DetectShort(s) == Some(ShortInfo(t, end)) && 2 <= t && t + 2 < |s|
    ensures var g1 := OpenBlockFor(g, CtrlIf, -1, TIf);
      var c := TOp(I32Const(ConstArg(s[t + 1])));
      var g2 := EmitRange(fi, s[1..t - 1], at + 1, K, if s[0].JmpIf? then Put(g1, [c, TElse]) else g1);
      EmitFrom(fi, s, at, K, excluded, g)
      == EmitFrom(fi, s[t + 3..], at + t + 3, K, excluded, Drop2(if s[0].JmpIf? then g2 else Put(g2, [TElse, c])))
  {
    hide EmitRange, DetectShort;
  }

  lemma EmitHeader(fi: FuncInfo, s: seq<Inst>, at: nat, K: Kinds, excluded: set<int>, g: Gen, brk: int, n: nat)
    requires s != [] && s[0].Label? && s[0].l in K.headers
    requires FindBreak(s[1..], s[0].l) == brk && LoopLength(s, brk) == n
    ensures var g1 := OpenBlockFor(OpenBlockFor(g, CtrlBlock, brk, TBlock), CtrlLoop, s[0].l, TLoop);
      var g2 := Drop2(EmitRange(fi, s[1..n], at + 1, K, g1));
      var live := |g2.blocks| >= 1 && g2.blocks[|g2.blocks| - 1].live;
      EmitFrom(fi, s, at, K, excluded, g) == EmitFrom(fi, s[n..], at + n, K, excluded, Settle(Drop2(g2), live))
  {
    hide EmitRange, FindBreak, LoopLength;
  }

  /** One step of the pre-scan. */
  lemma PreScanNext(s: seq<Inst>, at: nat, K: Kinds, a: Scan)
    requires s != []
    ensures s[0].Label? && s[0].l in K.headers ==>
      var n := LoopLength(s, FindBreak(s[1..], s[0].l));
      PreScan(s, at, K, a) == PreScan(s[n..], at + n, K, a)
    ensures (s[0].JmpIf? || s[0].JmpIfNot?) && DetectShort(s).Some? ==>
      PreScan(s, at, K, a)
      == PreScan(s[1..], at + 1, K, a.(excluded := a.excluded + {s[0].l, DetectShort(s).value.end}))
    ensures !(s[0].Label? && s[0].l in K.headers) && !((s[0].JmpIf? || s[0].JmpIfNot?) && DetectShort(s).Some?) ==>
      PreScan(s, at, K, a) == PreScan(s[1..], at + 1, K, Scan(NextFwd(s, at, K, a), a.excluded))
  {
    hide DetectShort, FindBreak, LoopLength, FindLabel;
  }

  function NextFwd(s: seq<Inst>, at: nat, K: Kinds, a: Scan): seq<FwdTarget>
    requires s != []
  {
    if IsJump(s[0]) && s[0].l !in a.excluded && s[0].l !in K.headers && FindLabel(s[1..], s[0].l) >= 0
       && !HasLabel(a.fwd, s[0].l)
    then a.fwd + [FwdTarget(s[0].l, at + 1 + FindLabel(s[1..], s[0].l))] else a.fwd
  }

  lemma PreScanEnd(s: seq<Inst>, at: nat, K: Kinds, a: Scan)
    requires s == []
    ensures PreScan(s, at, K, a) == a
  {
  }
}
