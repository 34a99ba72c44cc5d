/** The VM's heap: a bump allocator that grows the memory, and two slab allocators whose free
    lists run through the freed slots themselves. */
module Heap {
  import opened Ir

  const PAGE: nat := 65536
  const EXTRA: nat := 4194304

  // ----- words in memory -----

  type Byte = x: int | 0 <= x < 256

  type Bytes = seq<Byte>

  function Pow256(n: nat): (r: nat)
    ensures r >= 1
  {
    if n == 0 then 1 else 256 * Pow256(n - 1)
  }

  /** The n low bytes of v, least significant first. */
  function Encode(v: nat, n: nat): (r: Bytes)
    ensures |r| == n
  {
    if n == 0 then [] else [v % 256] + Encode(v / 256, n - 1)
  }

  function Decode(b: Bytes): (r: nat) {
    if b == [] then 0 else b[0] + 256 * Decode(b[1..])
  }

  lemma DivTwice(v: nat, p: nat)
    requires p >= 1
    ensures (v / 256) / p == v / (256 * p)
  {
    var q, r := (v / 256) / p, (v / 256) % p;
    assert v / 256 == p * q + r;
    assert v == 256 * (p * q + r) + v % 256;
    assert 256 * (p * q + r) == (256 * p) * q + 256 * r;
    Quotient(v, 256 * p, q, v % 256 + 256 * r);
  }

  lemma Quotient(v: nat, m: nat, q: int, x: int)
    requires m > 0 && v == m * q + x && 0 <= x < m
    ensures v / m == q
  {
    Remainder(v, m, q, x);
    assert v == m * (v / m) + x;
    Distribute(m, q, v / m);
    if q != v / m {
      AtLeast(m, if q > v / m then q - v / m else v / m - q);
      Distribute(m, v / m, q);
    }
  }

  /** Byte i of the encoding is digit i of the value to the base 256. */
  lemma {:induction false} EncodeAt(v: nat, n: nat, i: nat)
    requires i < n
    ensures Encode(v, n)[i] == (v / Pow256(i)) % 256
    decreases n
  {
    if i > 0 {
      EncodeAt(v / 256, n - 1, i - 1);
      DivTwice(v, Pow256(i - 1));
    }
  }

  /** A piece of an encoding encodes the value without its lower digits. */
  lemma {:induction false} EncodeSlice(v: nat, n: nat, j: nat, k: nat)
    requires j + k <= n
    ensures Encode(v, n)[j..j + k] == Encode(v / Pow256(j), k)
    decreases n
  {
    var e := Encode(v, n);
    if j > 0 {
      EncodeSlice(v / 256, n - 1, j - 1, k);
      DivTwice(v, Pow256(j - 1));
      assert e[j..j + k] == e[1..][j - 1..j - 1 + k];
    } else if k > 0 {
      EncodeSlice(v / 256, n - 1, 0, k - 1);
      assert e[0..k] == [e[0]] + e[1..][0..k - 1];
    }
  }

  /** A value is determined by its digits, and the other way round. */
  lemma {:induction false} DecodeAt(b: Bytes)
    ensures Decode(b) < Pow256(|b|)
    ensures forall i :: 0 <= i < |b| ==> (Decode(b) / Pow256(i)) % 256 == b[i]
  {
    if b != [] {
      var d := Decode(b[1..]);
      DecodeAt(b[1..]);
      assert Decode(b) / 256 == d && Decode(b) % 256 == b[0];
      forall i | 0 <= i < |b|
        ensures (Decode(b) / Pow256(i)) % 256 == b[i]
      {
        if i > 0 {
          DivTwice(Decode(b), Pow256(i - 1));
          assert b[i] == b[1..][i - 1];
        }
      }
    }
  }

  lemma {:induction false} DecodeSnoc(b: Bytes, x: Byte)
    ensures Decode(b + [x]) == Decode(b) + x * Pow256(|b|)
  {
    if b != [] {
      DecodeSnoc(b[1..], x);
      assert (b + [x])[1..] == b[1..] + [x];
      var p := Pow256(|b| - 1);
      assert 256 * (x * p) == x * (256 * p);
    }
  }

  lemma {:induction false} DecodeEncode(v: nat, n: nat)
    ensures Decode(Encode(v, n)) == v % Pow256(n)
  {
    if n > 0 {
      DecodeEncode(v / 256, n - 1);
      var p := Pow256(n - 1);
      var e := Encode(v, n);
      assert e[1..] == Encode(v / 256, n - 1);
      SplitMod(v, p);
    }
  }

  lemma SplitMod(v: nat, p: nat)
    requires p >= 1
    ensures v % 256 + 256 * ((v / 256) % p) == v % (256 * p)
  {
    var q, r := (v / 256) / p, (v / 256) % p;
    assert v / 256 == p * q + r;
    assert v == 256 * (p * q + r) + v % 256;
    assert 256 * (p * q + r) == (256 * p) * q + 256 * r;
    var x := v % 256 + 256 * r;
    assert v == (256 * p) * q + x;
    assert r <= p - 1;
    assert 0 <= x < 256 * p;
    Remainder(v, 256 * p, q, x);
  }

  lemma Remainder(v: nat, m: nat, q: int, x: int)
    requires m > 0 && v == m * q + x && 0 <= x < m
    ensures v % m == x
  {
    var q', x' := v / m, v % m;
    assert v == m * q' + x';
    Distribute(m, q, q');
    if q > q' {
      AtLeast(m, q - q');
    } else if q < q' {
      AtLeast(m, q' - q);
      Distribute(m, q', q);
    }
  }

  lemma Distribute(m: nat, a: int, b: int)
    ensures m * a - m * b == m * (a - b)
  {
  }

  lemma AtLeast(m: nat, d: int)
    requires d >= 1
    ensures m * d >= m
  {
    assert m * d == m * (d - 1) + m;
    assert m * (d - 1) >= 0;
  }

  /** A read outside the memory, or of the nil address, gives 0. */
  function Load(mem: Bytes, a: nat, n: nat): nat {
    if a == 0 || a + n > |mem| then 0 else Decode(mem[a..a + n])
  }

  function Write(mem: Bytes, a: nat, b: Bytes): (r: Bytes)
    requires a + |b| <= |mem|
    ensures |r| == |mem|
  {
    mem[..a] + b + mem[a + |b|..]
  }

  /** Ranges of n and k bytes do not meet. */
  predicate Apart(a: nat, n: nat, b: nat, k: nat) {
    a + n <= b || b + k <= a
  }

  lemma LoadWritten(mem: Bytes, a: nat, v: nat, n: nat)
    requires 0 < a && a + n <= |mem| && v < Pow256(n)
    ensures Load(Write(mem, a, Encode(v, n)), a, n) == v
  {
    var m := Write(mem, a, Encode(v, n));
    assert m[a..a + n] == Encode(v, n);
    DecodeEncode(v, n);
    Small(v, Pow256(n));
  }

  /** Any part of a stored value is read back: k bytes from the j-th on. */
  lemma LoadPart(mem: Bytes, a: nat, v: nat, n: nat, j: nat, k: nat)
    requires 0 < a && a + n <= |mem| && j + k <= n
    ensures Load(Write(mem, a, Encode(v, n)), a + j, k) == (v / Pow256(j)) % Pow256(k)
  {
    hide Encode, Decode, Write, Pow256;
    WrittenPart(mem, a, Encode(v, n), j, k);
    EncodeSlice(v, n, j, k);
    DecodeEncode(v / Pow256(j), k);
  }

  /** A write to grown memory, byte by byte. */
  lemma StoreBegins(mem: Bytes, a: nat, v: nat, n: nat)
    requires a <= |mem|
    ensures Write(mem, a, []) == mem && [] + Encode(v, n) == Encode(v, n)
  {
  }

  /** The next byte goes behind those already written. */
  lemma StoreStep(mem: Bytes, a: nat, done: Bytes, rest: nat, k: nat)
    requires k > 0 && a + |done| + k <= |mem|
    ensures Write(mem, a, done)[a + |done| := rest % 256] == Write(mem, a, done + [rest % 256])
    ensures done + Encode(rest, k) == done + [rest % 256] + Encode(rest / 256, k - 1)
  {
  }

  lemma StoreEnds(done: Bytes, rest: nat)
    ensures done + Encode(rest, 0) == done
  {
  }

  lemma WroteBytes(mem: Bytes, t: Bytes, a: nat, v: nat, n: nat)
    requires |t| >= |mem| && |t| >= a + n && t == Write(Grown(mem, |t|), a, Encode(v, n))
    ensures forall i :: 0 <= i < n ==> t[a + i] == (v / Pow256(i)) % 256
    ensures forall i :: 0 <= i < |t| && !(a <= i < a + n) ==> t[i] == if i < |mem| then mem[i] else 0
  {
    hide Encode, Pow256;
    forall k | 0 <= k < n
      ensures t[a + k] == (v / Pow256(k)) % 256
    {
      EncodeAt(v, n, k);
      assert t[a + k] == Encode(v, n)[k];
    }
  }

  lemma WrittenPart(mem: Bytes, a: nat, b: Bytes, j: nat, k: nat)
    requires a + |b| <= |mem| && j + k <= |b|
    ensures Write(mem, a, b)[a + j..a + j + k] == b[j..j + k]
  {
  }

  lemma Small(v: nat, m: nat)
    requires v < m
    ensures v % m == v
  {
    Remainder(v, m, 0, v);
  }

  /** The old bytes, then zeros. */
  function Grown(mem: Bytes, size: nat): (r: Bytes)
    requires size >= |mem|
    ensures |r| == size && mem <= r
  {
    mem + seq(size - |mem|, _ => 0)
  }

  lemma LoadGrown(mem: Bytes, size: nat, a: nat, n: nat)
    requires size >= |mem| && a + n <= |mem|
    ensures Load(Grown(mem, size), a, n) == Load(mem, a, n)
  {
    assert Grown(mem, size)[a..a + n] == mem[a..a + n];
  }

  // ----- slabs -----

  lemma {:induction false} ZeroBytes(n: nat)
    ensures forall i :: 0 <= i < n ==> Encode(0, n)[i] == 0
    decreases n
  {
    if n > 0 {
      ZeroBytes(n - 1);
    }
  }

  /** The fields of one slab allocator. */
  datatype Slab = Slab(size: nat, bump: nat, end: nat, free: nat)

  /** What they stand for: its pages, the slots carved so far, the free list in order. */
  datatype Plan = Plan(pages: set<nat>, slots: set<nat>, frees: seq<nat>)

  /** The list of freed slots is linked through their first words and ends in 0. */
  predicate Chain(mem: Bytes, ws: nat, free: int, frees: seq<nat>)
    decreases |frees|
  {
    if frees == [] then free == 0
    else free == frees[0] && frees[0] != 0 && Chain(mem, ws, Load(mem, frees[0], ws), frees[1..])
  }

  ghost predicate NoRepeat(xs: seq<nat>) {
    forall i, j :: 0 <= i < j < |xs| ==> xs[i] != xs[j]
  }

  ghost predicate OnPage(a: nat, size: nat, p: nat) {
    p <= a && a + size <= p + PAGE
  }

  ghost predicate SlotsApart(slots: set<nat>, size: nat) {
    forall a, b :: a in slots && b in slots && a != b ==> Apart(a, size, b, size)
  }

  ghost predicate SlabOK(mem: Bytes, ws: nat, s: Slab, p: Plan) {
    && ws > 0 && (s.size == 2 * ws || s.size == 4 * ws) && s.size <= PAGE
    && (forall a :: a in p.slots ==> a > 0 && a % ws == 0 && exists q :: q in p.pages && OnPage(a, s.size, q))
    && SlotsApart(p.slots, s.size)
    && (if s.end == 0 then s.bump == 0 else
          && s.end >= PAGE && s.end - PAGE in p.pages && s.end - PAGE <= s.bump <= s.end && s.bump % ws == 0
          && forall a :: a in p.slots && OnPage(a, s.size, s.end - PAGE) ==> a + s.size <= s.bump)
    && Chain(mem, ws, s.free, p.frees) && NoRepeat(p.frees)
    && (forall a :: a in p.frees ==> a in p.slots)
  }

  lemma {:induction false} ChainKeeps(mem: Bytes, mem': Bytes, ws: nat, free: int, frees: seq<nat>)
    requires Chain(mem, ws, free, frees)
    requires forall a :: a in frees ==> Load(mem', a, ws) == Load(mem, a, ws)
    ensures Chain(mem', ws, free, frees)
    decreases |frees|
  {
    if frees != [] {
      assert frees[0] in frees;
      assert forall a :: a in frees[1..] ==> a in frees;
      ChainKeeps(mem, mem', ws, Load(mem, frees[0], ws), frees[1..]);
    }
  }

  lemma SlabKeeps(mem: Bytes, mem': Bytes, ws: nat, s: Slab, p: Plan)
    requires SlabOK(mem, ws, s, p)
    requires forall a :: a in p.frees ==> Load(mem', a, ws) == Load(mem, a, ws)
    ensures SlabOK(mem', ws, s, p)
  {
    ChainKeeps(mem, mem', ws, s.free, p.frees);
  }

  /** A live object: an address and a size. */
  datatype Obj = Obj(at: nat, size: nat)

  /** The slots in use. */
  function LiveOf(p: Plan, size: nat): set<Obj> {
    set a | a in p.slots && a !in p.frees :: Obj(a, size)
  }

  function PlainObjs(plain: set<nat>, regions: map<nat, nat>): set<Obj> {
    set a | a in plain && a in regions :: Obj(a, regions[a])
  }

  lemma SlotLives(p: Plan, size: nat, a: nat)
    requires a !in p.slots && forall b :: b in p.frees ==> b in p.slots
    ensures LiveOf(p.(slots := p.slots + {a}), size) == LiveOf(p, size) + {Obj(a, size)}
    ensures Obj(a, size) !in LiveOf(p, size)
  {
    assert a !in p.frees;
  }

  lemma PagesAside(p: Plan, pages: set<nat>, size: nat)
    ensures LiveOf(p.(pages := pages), size) == LiveOf(p, size)
  {
  }

  lemma TakenLives(p: Plan, size: nat)
    requires p.frees != [] && NoRepeat(p.frees) && p.frees[0] in p.slots
    ensures LiveOf(p.(frees := p.frees[1..]), size) == LiveOf(p, size) + {Obj(p.frees[0], size)}
    ensures Obj(p.frees[0], size) !in LiveOf(p, size)
  {
    assert p.frees == [p.frees[0]] + p.frees[1..];
    assert p.frees[0] !in p.frees[1..];
  }

  lemma FreedDies(p: Plan, size: nat, a: nat)
    requires a in p.slots && a !in p.frees
    ensures LiveOf(p.(frees := [a] + p.frees), size) == LiveOf(p, size) - {Obj(a, size)}
  {
  }

  lemma PlainSame(plain: set<nat>, regions: map<nat, nat>, a: nat, n: nat)
    requires a !in regions && plain <= regions.Keys
    ensures PlainObjs(plain, regions[a := n]) == PlainObjs(plain, regions)
    ensures PlainObjs(plain + {a}, regions[a := n]) == PlainObjs(plain, regions) + {Obj(a, n)}
  {
    var r := regions[a := n];
    assert forall b :: b in plain ==> r[b] == regions[b];
  }

  // ----- the heap as a whole -----

  /** The allocated regions: disjoint, aligned, above the guard, below the bump pointer. */
  ghost predicate RegionsOK(regions: map<nat, nat>, ws: nat, guard: nat, next: nat) {
    && ws > 0
    && (forall a :: a in regions ==> guard <= a && a % ws == 0 && regions[a] > 0 && a + regions[a] <= next)
    && (forall a, b :: a in regions && b in regions && a != b ==> Apart(a, regions[a], b, regions[b]))
  }

  ghost predicate PagesIn(regions: map<nat, nat>, pages: set<nat>) {
    forall q :: q in pages ==> q in regions && regions[q] == PAGE
  }

  class Heap {
    const ws: nat
    const guard: nat
    var memory: Bytes
    var memNext: nat
    var small: Slab
    var large: Slab
    ghost var regions: map<nat, nat>
    ghost var plain: set<nat>
    ghost var smallPlan: Plan
    ghost var largePlan: Plan

    constructor (ws: nat, guard: nat, size: nat)
      requires ws > 0 && 4 * ws <= PAGE && 0 < guard <= size
      ensures Valid() && this.ws == ws && this.guard == guard && Live() == {} && memNext == guard
    {
      this.ws, this.guard := ws, guard;
      memory := seq(size, _ => 0);
      memNext := guard;
      small, large := Slab(2 * ws, 0, 0, 0), Slab(4 * ws, 0, 0, 0);
      regions, plain := map[], {};
      smallPlan, largePlan := Plan({}, {}, []), Plan({}, {}, []);
    }

    ghost predicate Valid()
      reads this
    {
      ValidWith(memory)
    }

    /** The invariant, for given memory contents. */
    ghost predicate ValidWith(mem: Bytes)
      reads this
    {
      && guard > 0 && memNext <= |mem| && guard <= memNext
      && RegionsOK(regions, ws, guard, memNext)
      && plain <= regions.Keys && PagesIn(regions, smallPlan.pages) && PagesIn(regions, largePlan.pages)
      && plain !! smallPlan.pages && plain !! largePlan.pages && smallPlan.pages !! largePlan.pages
      && small.size == 2 * ws && large.size == 4 * ws
      && SlabOK(mem, ws, small, smallPlan) && SlabOK(mem, ws, large, largePlan)
    }

    /** The objects handed out and not given back. */
    ghost function Live(): set<Obj>
      reads this
    {
      PlainObjs(plain, regions) + LiveOf(smallPlan, small.size) + LiveOf(largePlan, large.size)
    }

    function SlabOf(big: bool): Slab
      reads this
    {
      if big then large else small
    }

    ghost function PlanOf(big: bool): Plan
      reads this
    {
      if big then largePlan else smallPlan
    }

    method SetSlab(big: bool, s: Slab)
      modifies `small, `large
      ensures if big then large == s && small == old(small) else small == s && large == old(large)
    {
      if big {
        large := s;
      } else {
        small := s;
      }
    }

    /** Doubling, or more when that is not enough; the old bytes stay, the new ones are zero. */
    method EnsureMemory(needed: nat)
      modifies `memory
      ensures |memory| >= needed && |memory| >= old(|memory|)
      ensures forall i :: 0 <= i < |memory| ==> memory[i] == if i < |old(memory)| then old(memory)[i] else 0
      ensures memory == Grown(old(memory), |memory|) && (needed <= old(|memory|) ==> memory == old(memory))
    {
      if needed <= |memory| {
        assert memory + [] == memory;
        return;
      }
      var newSize := |memory| * 2;
      if newSize < needed {
        newSize := needed + EXTRA;
      }
      var grown: Bytes := seq(newSize, _ => 0);
      var j := 0;
      while j < |memory|
        invariant 0 <= j <= |memory| <= newSize == |grown| && memory == old(memory)
        invariant grown[..j] == memory[..j] && forall k :: j <= k < newSize ==> grown[k] == 0
      {
        grown := grown[j := memory[j]];
        j := j + 1;
      }
      assert grown == Grown(memory, newSize);
      memory := grown;
    }

    /** The value of n bytes, least significant first; 0 for the nil address and outside the memory. */
    method LoadN(a: nat, n: nat) returns (val: nat)
      ensures val == Load(memory, a, n)
      ensures a == 0 || a + n > |memory| ==> val == 0
      ensures 0 < a && a + n <= |memory| ==>
                val < Pow256(n) && forall i :: 0 <= i < n ==> memory[a + i] == (val / Pow256(i)) % 256
    {
      val := 0;
      if a == 0 || a + n > |memory| {
        return;
      }
      var i := 0;
      assert memory[a..a] == [];
      while i < n
        invariant 0 <= i <= n && val == Decode(memory[a..a + i])
      {
        DecodeSnoc(memory[a..a + i], memory[a + i]);
        assert memory[a..a + i + 1] == memory[a..a + i] + [memory[a + i]];
        val := val + memory[a + i] * Pow256(i);
        i := i + 1;
      }
      DecodeAt(memory[a..a + n]);
      forall j | 0 <= j < n
        ensures memory[a + j] == (val / Pow256(j)) % 256
      {
        assert memory[a + j] == memory[a..a + n][j];
      }
    }

    /** The n low bytes of a value, growing the memory if needed; every other byte as it was, and
        zero where there was none. */
    method StoreN(a: nat, v: nat, n: nat)
      modifies `memory
      ensures |memory| >= a + n && |memory| >= old(|memory|)
      ensures forall i :: 0 <= i < n ==> memory[a + i] == (v / Pow256(i)) % 256
      ensures forall i :: 0 <= i < |memory| && !(a <= i < a + n) ==>
                memory[i] == if i < |old(memory)| then old(memory)[i] else 0
      ensures memory == Write(Grown(old(memory), |memory|), a, Encode(v, n))
      ensures a + n <= old(|memory|) ==> |memory| == old(|memory|)
    {
      hide Encode, Write, Pow256, Grown;
      EnsureMemory(a + n);
      ghost var start := memory;
      var rest, i := v, 0;
      ghost var done: Bytes := [];
      StoreBegins(start, a, v, n);
      while i < n
        invariant 0 <= i <= n && |done| == i && |memory| == |start| >= a + n && rest >= 0
        invariant memory == Write(start, a, done) && Encode(v, n) == done + Encode(rest, n - i)
      {
        StoreStep(start, a, done, rest, n - i);
        memory := memory[a + i := rest % 256];
        done := done + [rest % 256];
        rest := rest / 256;
        i := i + 1;
      }
      StoreEnds(done, rest);
      WroteBytes(old(memory), memory, a, v, n);
    }

    /** A fresh region at the next aligned address. */
    method NewRegion(size: nat) returns (addr: nat)
      requires Valid() && size > 0
      modifies `memory, `memNext, `regions
      ensures Valid() && addr !in old(regions) && regions == old(regions)[addr := size]
      ensures guard <= addr && addr % ws == 0 && old(memNext) <= addr && memNext == addr + size <= |memory|
      ensures |memory| >= old(|memory|) && memory == Grown(old(memory), |memory|)
    {
      hide SlabOK, RegionsOK;
      assert ws > 0 by { WordPositive(regions, ws, guard, memNext); }
      memNext := (memNext + ws - 1) / ws * ws;
      AlignedUp(old(memNext), ws);
      addr := memNext;
      memNext := memNext + size;
      EnsureMemory(memNext);
      regions := regions[addr := size];
      RegionAdded(old(regions), ws, guard, old(memNext), addr, size);
      GrowthKeeps(old(memory), memory, ws, small, smallPlan, old(regions), old(memNext), guard);
      GrowthKeeps(old(memory), memory, ws, large, largePlan, old(regions), old(memNext), guard);
    }

    /** Plain allocation; an empty request takes one byte. */
    method Alloc(size: nat) returns (addr: nat)
      requires Valid()
      modifies this
      ensures Valid() && Live() == old(Live()) + {Obj(addr, if size == 0 then 1 else size)}
      ensures Obj(addr, if size == 0 then 1 else size) !in old(Live())
      ensures |memory| >= old(|memory|) && memory == Grown(old(memory), |memory|)
      ensures addr >= old(memNext)
    {
      hide SlabOK, RegionsOK, LiveOf, PlainObjs;
      var n := if size == 0 then 1 else size;
      forall o | o in Live()
        ensures Placed(this, o)
      {
        LivePlaced(this, o);
      }
      addr := NewRegion(n);
      PlainSame(plain, old(regions), addr, n);
      plain := plain + {addr};
    }

    /** Nothing but the bytes of one range may have changed. */
    twostate predicate OnlyChanged(a: nat, n: nat)
      reads this
    {
      && |old(memory)| <= |memory|
      && forall i :: 0 <= i < |old(memory)| && !(a <= i < a + n) ==> memory[i] == old(memory)[i]
    }

    method StoreWord(a: nat, v: nat)
      requires a + ws <= |memory| && v < Pow256(ws) && a > 0
      modifies `memory
      ensures memory == Write(old(memory), a, Encode(v, ws)) && |memory| == |old(memory)|
      ensures Load(memory, a, ws) == v && OnlyChanged(a, ws)
    {
      StoreN(a, v, ws);
      assert old(memory) + [] == old(memory);
      LoadWritten(old(memory), a, v, ws);
    }

    /** What handing out a slot of one slab leaves of everything else. */
    twostate predicate HandedOut(big: bool, addr: nat)
      reads this
    {
      && SlabOf(big).size == old(SlabOf(big)).size
      && Live() == old(Live()) + {Obj(addr, SlabOf(big).size)} && Obj(addr, SlabOf(big).size) !in old(Live())
      && OnlyChanged(addr, SlabOf(big).size)
    }

    /** Where the slot comes from: the head of the free list, cleared; the next slot of the
        page; or the first slot of a page behind everything allocated so far. */
    twostate predicate Served(big: bool, addr: nat)
      reads this
    {
      var s, t := old(SlabOf(big)), SlabOf(big);
      && SlabOf(!big) == old(SlabOf(!big))
      && if s.free != 0 then
           addr == s.free && t.free == Load(old(memory), addr, ws) && t == s.(free := t.free) && ZerosAt(memory, addr, s.size)
         else if s.bump + s.size <= s.end then addr == s.bump && t == s.(bump := s.bump + s.size) && memory == old(memory)
         else addr >= old(memNext) && t == Slab(s.size, addr + s.size, addr + PAGE, 0)
    }

    /** An object of the slab: from the free list, from the current page, or from a new page. */
    method SlabAlloc(big: bool) returns (addr: nat)
      requires Valid()
      modifies this
      ensures Valid() && HandedOut(big, addr) && Served(big, addr)
    {
      var s := SlabOf(big);
      if s.free != 0 {
        addr := TakeFree(big);
      } else if s.bump + s.size <= s.end {
        addr := TakeBump(big);
      } else {
        addr := TakePage(big);
      }
    }

    method TakeBump(big: bool) returns (addr: nat)
      requires Valid() && SlabOf(big).bump + SlabOf(big).size <= SlabOf(big).end
      modifies this
      ensures Valid() && HandedOut(big, addr)
      ensures SlabOf(!big) == old(SlabOf(!big)) && memory == old(memory)
      ensures addr == old(SlabOf(big)).bump && SlabOf(big) == old(SlabOf(big)).(bump := addr + old(SlabOf(big)).size)
    {
      hide SlabOK, RegionsOK, LiveOf, PlainObjs;
      var s := SlabOf(big);
      addr := s.bump;
      BumpSlot(memory, ws, s, PlanOf(big), regions, guard, memNext);
      FreesInSlots(memory, ws, s, PlanOf(big));
      SlotLives(PlanOf(big), s.size, addr);
      SetSlab(big, s.(bump := s.bump + s.size));
      AddSlot(big, addr);
      LiveOnce(this, big, addr);
    }

    method TakePage(big: bool) returns (addr: nat)
      requires Valid()
      modifies this
      ensures Valid() && HandedOut(big, addr)
      ensures SlabOf(!big) == old(SlabOf(!big)) && addr >= old(memNext)
      ensures var s := old(SlabOf(big));
        SlabOf(big) == Slab(s.size, addr + s.size, addr + PAGE, s.free)
    {
      hide SlabOK, RegionsOK, LiveOf, PlainObjs;
      var s := SlabOf(big);
      addr := NewRegion(PAGE);
      PlainSame(plain, old(regions), addr, PAGE);
      PageSlot(memory, ws, s, PlanOf(big), old(regions), guard, old(memNext), addr);
      FreesInSlots(memory, ws, s, PlanOf(big));
      PagesAside(PlanOf(big), PlanOf(big).pages + {addr}, s.size);
      SlotLives(PlanOf(big).(pages := PlanOf(big).pages + {addr}), s.size, addr);
      SetSlab(big, Slab(s.size, addr + s.size, addr + PAGE, s.free));
      AddPage(big, addr);
      AddSlot(big, addr);
      LiveOnce(this, big, addr);
    }

    /** The head of the free list, its words cleared. */
    method TakeFree(big: bool) returns (addr: nat)
      requires Valid() && SlabOf(big).free != 0
      modifies this
      ensures Valid() && HandedOut(big, addr)
      ensures SlabOf(!big) == old(SlabOf(!big)) && ZerosAt(memory, addr, old(SlabOf(big)).size)
      ensures addr == old(SlabOf(big)).free && SlabOf(big) == old(SlabOf(big)).(free := SlabOf(big).free)
      ensures SlabOf(big).free == Load(old(memory), addr, ws)
    {
      hide SlabOK, RegionsOK, LiveOf, PlainObjs, Chain, ZerosAt, Load;
      var s := SlabOf(big);
      addr := s.free;
      ghost var p := PlanOf(big);
      HeadIs(memory, ws, s, p, regions, guard, memNext);
      TakenLives(p, s.size);
      var next := LoadN(addr, ws);
      ClearWords(addr, s.size / ws);
      TakenKeeps(old(memory), memory, ws, s, p, regions, guard, memNext, next);
      OtherKeeps(old(memory), memory, ws, SlabOf(!big), PlanOf(!big), p, s.size, addr, regions, guard, memNext);
      SetSlab(big, s.(free := next));
      SetFrees(big, p.frees[1..]);
      LiveOnce(this, big, addr);
    }

    /** Store 0 in the first k words of a slot. */
    method ClearWords(a: nat, k: nat)
      requires a > 0 && ws > 0 && a + k * ws <= |memory|
      modifies `memory
      ensures |memory| == |old(memory)| && OnlyChanged(a, k * ws) && ZerosAt(memory, a, k * ws)
    {
      var i := 0;
      while i < k
        invariant 0 <= i <= k && ClearedTo(old(memory), memory, a, i * ws)
      {
        hide ClearedTo, Write, Encode;
        WordInside(i, k, ws);
        ClearStep(old(memory), memory, a, i * ws, ws);
        StoreWord(a + i * ws, 0);
        NextWord(i, ws);
        i := i + 1;
      }
    }

    /** Give a slot back: it becomes the head of the free list. */
    method SlabFree(big: bool, addr: nat)
      requires Valid() && Obj(addr, SlabOf(big).size) in LiveOf(PlanOf(big), SlabOf(big).size)
      requires memNext <= Pow256(ws)
      modifies this
      ensures Valid() && Live() == old(Live()) - {Obj(addr, SlabOf(big).size)} && SlabOf(big).size == old(SlabOf(big)).size
      ensures OnlyChanged(addr, ws) && SlabOf(!big) == old(SlabOf(!big))
      ensures SlabOf(big) == old(SlabOf(big)).(free := addr) && Load(memory, addr, ws) == old(SlabOf(big)).free
      ensures PlanOf(big).frees == [addr] + old(PlanOf(big)).frees
    {
      hide SlabOK, RegionsOK, LiveOf, PlainObjs, Chain, Write, Encode, Load, OnPage, PagesIn, Pow256;
      var s := SlabOf(big);
      ghost var p := PlanOf(big);
      SlotPlace(memory, ws, s, p, regions, guard, memNext, addr);
      FreedDies(p, s.size, addr);
      LiveOnce(this, big, addr);
      StoreWord(addr, s.free);
      FreedKeeps(old(memory), memory, ws, s, p, addr);
      Wider(old(memory), memory, addr, ws, s.size);
      OtherKeeps(old(memory), memory, ws, SlabOf(!big), PlanOf(!big), p, s.size, addr, regions, guard, memNext);
      Without(PlainObjs(plain, regions), LiveOf(smallPlan, small.size), LiveOf(largePlan, large.size), Obj(addr, s.size));
      SetSlab(big, s.(free := addr));
      SetFrees(big, [addr] + p.frees);
    }

    /** A program stores inside a live object: no free list notices, no other object changes. */
    method StoreInside(o: Obj, a: nat, v: nat, n: nat)
      requires Valid() && o in Live() && o.at <= a && a + n <= o.at + o.size
      modifies `memory
      ensures Valid() && Live() == old(Live()) && OnlyChanged(a, n)
      ensures a + n <= |memory| && memory[a..a + n] == Encode(v, n)
    {
      hide SlabOK, RegionsOK, LiveOf, PlainObjs, Chain;
      assert Placed(this, o) by { LivePlaced(this, o); }
      StoreN(a, v, n);
      assert old(memory) + [] == old(memory);
      StoreKeeps(this, old(memory), memory, o, a, n);
    }

    ghost method AddSlot(big: bool, a: nat)
      modifies `smallPlan, `largePlan
      ensures PlanOf(big) == old(PlanOf(big)).(slots := old(PlanOf(big)).slots + {a})
      ensures PlanOf(!big) == old(PlanOf(!big))
    {
      if big {
        largePlan := largePlan.(slots := largePlan.slots + {a});
      } else {
        smallPlan := smallPlan.(slots := smallPlan.slots + {a});
      }
    }

    ghost method AddPage(big: bool, q: nat)
      modifies `smallPlan, `largePlan
      ensures PlanOf(big) == old(PlanOf(big)).(pages := old(PlanOf(big)).pages + {q})
      ensures PlanOf(!big) == old(PlanOf(!big))
    {
      if big {
        largePlan := largePlan.(pages := largePlan.pages + {q});
      } else {
        smallPlan := smallPlan.(pages := smallPlan.pages + {q});
      }
    }

    ghost method SetFrees(big: bool, frees: seq<nat>)
      modifies `smallPlan, `largePlan
      ensures PlanOf(big) == old(PlanOf(big)).(frees := frees) && PlanOf(!big) == old(PlanOf(!big))
    {
      if big {
        largePlan := largePlan.(frees := frees);
      } else {
        smallPlan := smallPlan.(frees := frees);
      }
    }
  }

  lemma WordPositive(regions: map<nat, nat>, ws: nat, guard: nat, next: nat)
    requires RegionsOK(regions, ws, guard, next)
    ensures ws > 0
  {
  }

  lemma RegionAdded(regions: map<nat, nat>, ws: nat, guard: nat, next: nat, addr: nat, size: nat)
    requires RegionsOK(regions, ws, guard, next) && addr >= next >= guard && addr % ws == 0 && size > 0
    ensures addr !in regions && RegionsOK(regions[addr := size], ws, guard, addr + size)
  {
    assert forall a :: a in regions ==> a < addr;
    var r := regions[addr := size];
    forall a, b | a in r && b in r && a != b
      ensures Apart(a, r[a], b, r[b])
    {
      if a == addr {
        assert b in regions;
      } else {
        assert a in regions;
      }
    }
  }

  lemma AlignedUp(x: nat, ws: nat)
    requires ws > 0
    ensures var y := (x + ws - 1) / ws * ws; x <= y < x + ws && y % ws == 0
  {
    var q := (x + ws - 1) / ws;
    assert x + ws - 1 == ws * q + (x + ws - 1) % ws;
    assert q * ws == ws * q;
    Remainder(ws * q, ws, q, 0);
  }

  /** Slots lie below the bump pointer of the heap, so growth does not touch them. */
  lemma GrowthKeeps(mem: Bytes, mem': Bytes, ws: nat, s: Slab, p: Plan, regions: map<nat, nat>, next: nat, guard: nat)
    requires SlabOK(mem, ws, s, p) && PagesIn(regions, p.pages) && RegionsOK(regions, ws, guard, next) && next <= |mem|
    requires |mem'| >= |mem| && mem' == Grown(mem, |mem'|)
    ensures SlabOK(mem', ws, s, p)
  {
    forall a | a in p.frees
      ensures Load(mem', a, ws) == Load(mem, a, ws)
    {
      var q :| q in p.pages && OnPage(a, s.size, q);
      LoadGrown(mem, |mem'|, a, ws);
    }
    SlabKeeps(mem, mem', ws, s, p);
  }

  /** The next slot of the current page. */
  lemma BumpSlot(mem: Bytes, ws: nat, s: Slab, p: Plan, regions: map<nat, nat>, guard: nat, next: nat)
    requires SlabOK(mem, ws, s, p) && PagesIn(regions, p.pages) && RegionsOK(regions, ws, guard, next) && guard > 0
    requires s.bump + s.size <= s.end
    ensures s.bump !in p.slots
    ensures SlabOK(mem, ws, s.(bump := s.bump + s.size), p.(slots := p.slots + {s.bump}))
  {
    hide Chain;
    var a, page := s.bump, s.end - PAGE;
    assert s.end > 0 && OnPage(a, s.size, page) && page in regions;
    forall b | b in p.slots
      ensures Apart(b, s.size, a, s.size)
    {
      var q :| q in p.pages && OnPage(b, s.size, q);
      assert q != page ==> Apart(q, PAGE, page, PAGE);
    }
    SumAligned(a, s.size, ws);
    var s', p' := s.(bump := a + s.size), p.(slots := p.slots + {a});
    forall b | b in p'.slots && OnPage(b, s.size, page)
      ensures b + s.size <= s'.bump
    {
    }
    assert SlotsApart(p'.slots, s.size);
  }

  lemma SumAligned(a: nat, size: nat, ws: nat)
    requires ws > 0 && a % ws == 0 && (size == 2 * ws || size == 4 * ws)
    ensures (a + size) % ws == 0
  {
    var k := if size == 2 * ws then 2 else 4;
    var q := a / ws;
    assert a == ws * q;
    assert a + size == ws * (q + k);
    Remainder(a + size, ws, q + k, 0);
  }

  /** The first slot of a new page. */
  lemma PageSlot(mem: Bytes, ws: nat, s: Slab, p: Plan, regions: map<nat, nat>, guard: nat, next: nat, page: nat)
    requires SlabOK(mem, ws, s, p) && PagesIn(regions, p.pages) && RegionsOK(regions, ws, guard, next)
    requires page >= next >= guard > 0 && page % ws == 0
    ensures page !in p.slots && page !in p.pages
    ensures SlabOK(mem, ws, Slab(s.size, page + s.size, page + PAGE, s.free),
                   Plan(p.pages + {page}, p.slots + {page}, p.frees))
  {
    hide Chain;
    forall b | b in p.slots
      ensures b + s.size <= page
    {
      var q :| q in p.pages && OnPage(b, s.size, q);
    }
    SumAligned(page, s.size, ws);
    assert OnPage(page, s.size, page);
    var p' := Plan(p.pages + {page}, p.slots + {page}, p.frees);
    assert SlotsApart(p'.slots, s.size);
    forall b | b in p'.slots
      ensures exists q :: q in p'.pages && OnPage(b, s.size, q)
    {
      if b in p.slots {
        var q :| q in p.pages && OnPage(b, s.size, q);
        assert q in p'.pages;
      }
    }
  }

  lemma Without(x: set<Obj>, y: set<Obj>, z: set<Obj>, o: Obj)
    requires o !in x
    ensures o !in z ==> x + (y - {o}) + z == x + y + z - {o}
    ensures o !in y ==> x + y + (z - {o}) == x + y + z - {o}
  {
  }

  lemma FreesInSlots(mem: Bytes, ws: nat, s: Slab, p: Plan)
    requires SlabOK(mem, ws, s, p)
    ensures forall b :: b in p.frees ==> b in p.slots
  {
  }

  lemma NextWord(i: nat, ws: nat)
    ensures (i + 1) * ws == i * ws + ws
  {
  }

  ghost predicate ZerosAt(mem: Bytes, a: nat, n: nat) {
    a + n <= |mem| && forall i :: a <= i < a + n ==> mem[i] == 0
  }

  /** The n bytes from a on are zero now; the others are as they were. */
  ghost predicate ClearedTo(was: Bytes, mem: Bytes, a: nat, n: nat) {
    && a + n <= |mem| == |was|
    && (forall i :: a <= i < a + n ==> mem[i] == 0)
    && (forall i :: 0 <= i < |mem| && !(a <= i < a + n) ==> mem[i] == was[i])
  }

  lemma ClearStep(was: Bytes, mem: Bytes, a: nat, n: nat, ws: nat)
    requires ClearedTo(was, mem, a, n) && a + n + ws <= |mem| && ws > 0
    ensures 1 <= Pow256(ws) && ClearedTo(was, Write(mem, a + n, Encode(0, ws)), a, n + ws) && |mem| == |was|
  {
    ZeroBytes(ws);
    var m, e := Write(mem, a + n, Encode(0, ws)), Encode(0, ws);
    forall i | a <= i < a + n + ws
      ensures m[i] == 0
    {
      if i >= a + n {
        assert m[i] == e[i - a - n];
      } else {
        assert m[i] == mem[i];
      }
    }
    forall i | 0 <= i < |m| && !(a <= i < a + n + ws)
      ensures m[i] == was[i]
    {
      assert m[i] == mem[i];
    }
  }

  lemma WordInside(i: nat, k: nat, ws: nat)
    requires i < k
    ensures i * ws + ws <= k * ws
  {
    assert k * ws == i * ws + (k - i) * ws;
    AtLeast(ws, k - i);
  }

  /** A slot of a slab lies on a page, so inside the memory; it holds whole words. */
  lemma SlotPlace(mem: Bytes, ws: nat, s: Slab, p: Plan, regions: map<nat, nat>, guard: nat, next: nat, a: nat)
    requires SlabOK(mem, ws, s, p) && PagesIn(regions, p.pages) && RegionsOK(regions, ws, guard, next) && next <= |mem|
    requires Obj(a, s.size) in LiveOf(p, s.size) || a in p.frees
    ensures a in p.slots && 0 < a && guard <= a && a + s.size <= next && a % ws == 0
    ensures s.size / ws * ws == s.size && ws <= s.size && ws > 0
    ensures Obj(a, s.size) in LiveOf(p, s.size) ==> a !in p.frees
    ensures s.free < next || s.free == 0
  {
    assert a in p.slots;
    var q :| q in p.pages && OnPage(a, s.size, q);
    WholeWords(s.size, ws);
    if p.frees != [] {
      assert p.frees[0] in p.frees;
      var r :| r in p.pages && OnPage(p.frees[0], s.size, r);
    }
  }

  lemma WholeWords(size: nat, ws: nat)
    requires ws > 0 && (size == 2 * ws || size == 4 * ws)
    ensures size / ws * ws == size && ws <= size
  {
    var k := if size == 2 * ws then 2 else 4;
    assert size == ws * k;
    Remainder(size, ws, k, 0);
    assert size == ws * (size / ws) + size % ws;
  }

  lemma HeadIs(mem: Bytes, ws: nat, s: Slab, p: Plan, regions: map<nat, nat>, guard: nat, next: nat)
    requires SlabOK(mem, ws, s, p) && PagesIn(regions, p.pages) && RegionsOK(regions, ws, guard, next) && next <= |mem|
    requires s.free != 0
    ensures p.frees != [] && p.frees[0] == s.free && NoRepeat(p.frees) && s.free in p.slots
    ensures s.free + s.size <= |mem| && s.size / ws * ws == s.size && ws > 0 && Load(mem, s.free, ws) >= 0
  {
    assert p.frees[0] in p.frees;
    SlotPlace(mem, ws, s, p, regions, guard, next, s.free);
    ChainNatural(mem, ws, Load(mem, s.free, ws), p.frees[1..]);
  }

  lemma ChainNatural(mem: Bytes, ws: nat, free: int, frees: seq<nat>)
    requires Chain(mem, ws, free, frees)
    ensures free >= 0
  {
  }

  /** Two memories that differ in one range only. */
  ghost predicate DiffersIn(mem: Bytes, mem': Bytes, a: nat, n: nat) {
    |mem'| == |mem| && forall i :: 0 <= i < |mem| && !(a <= i < a + n) ==> mem'[i] == mem[i]
  }

  lemma Wider(mem: Bytes, mem': Bytes, a: nat, n: nat, k: nat)
    requires DiffersIn(mem, mem', a, n) && n <= k
    ensures DiffersIn(mem, mem', a, k)
  {
  }

  lemma LoadOutside(mem: Bytes, mem': Bytes, a: nat, n: nat, c: nat, k: nat)
    requires DiffersIn(mem, mem', a, n) && Apart(a, n, c, k)
    ensures Load(mem', c, k) == Load(mem, c, k)
  {
    if c != 0 && c + k <= |mem| {
      assert mem'[c..c + k] == mem[c..c + k];
    }
  }

  /** Using the head slot does not disturb the rest of the list. */
  lemma TakenKeeps(mem: Bytes, mem': Bytes, ws: nat, s: Slab, p: Plan, regions: map<nat, nat>, guard: nat, next: nat, free: nat)
    requires SlabOK(mem, ws, s, p) && p.frees != [] && s.free == p.frees[0] && free == Load(mem, s.free, ws)
    requires DiffersIn(mem, mem', s.free, s.size)
    ensures SlabOK(mem', ws, s.(free := free), p.(frees := p.frees[1..]))
  {
    var rest := p.frees[1..];
    assert p.frees[0] in p.frees;
    forall a | a in rest
      ensures a in p.frees && Load(mem', a, ws) == Load(mem, a, ws)
    {
      var i :| 0 <= i < |rest| && rest[i] == a;
      assert p.frees[i + 1] == a && p.frees[0] != p.frees[i + 1];
      assert Apart(s.free, s.size, a, s.size);
      LoadOutside(mem, mem', s.free, s.size, a, ws);
    }
    ChainKeeps(mem, mem', ws, free, rest);
  }

  /** Freeing links the slot in front of the list. */
  lemma FreedKeeps(mem: Bytes, mem': Bytes, ws: nat, s: Slab, p: Plan, a: nat)
    requires SlabOK(mem, ws, s, p) && a in p.slots && a !in p.frees
    requires DiffersIn(mem, mem', a, ws) && Load(mem', a, ws) == s.free
    ensures SlabOK(mem', ws, s.(free := a), p.(frees := [a] + p.frees))
  {
    forall b | b in p.frees
      ensures Load(mem', b, ws) == Load(mem, b, ws)
    {
      assert Apart(a, s.size, b, s.size);
      LoadOutside(mem, mem', a, ws, b, ws);
    }
    ChainKeeps(mem, mem', ws, s.free, p.frees);
    var f := [a] + p.frees;
    assert f[1..] == p.frees;
    assert NoRepeat(f);
  }

  /** What happens inside a slot of one slab does not concern the other slab. */
  lemma OtherKeeps(mem: Bytes, mem': Bytes, ws: nat, o: Slab, q: Plan, p: Plan, size: nat, a: nat,
                   regions: map<nat, nat>, guard: nat, next: nat)
    requires SlabOK(mem, ws, o, q) && DiffersIn(mem, mem', a, size) && p.pages !! q.pages
    requires PagesIn(regions, p.pages) && PagesIn(regions, q.pages) && RegionsOK(regions, ws, guard, next)
    requires exists r :: r in p.pages && OnPage(a, size, r)
    ensures SlabOK(mem', ws, o, q)
  {
    var r :| r in p.pages && OnPage(a, size, r);
    forall b | b in q.frees
      ensures Load(mem', b, ws) == Load(mem, b, ws)
    {
      var t :| t in q.pages && OnPage(b, o.size, t);
      assert Apart(r, PAGE, t, PAGE);
      LoadOutside(mem, mem', a, size, b, ws);
    }
    SlabKeeps(mem, mem', ws, o, q);
  }

  // ----- freeing twice -----

  /** If a slot that is already on the list is freed again, the list never ends: no finite
      chain of slots explains the free pointer any more. */
  lemma {:induction false} DoubleFreeLoops(mem: Bytes, mem': Bytes, ws: nat, free: int, frees: seq<nat>, k: nat, g: seq<nat>)
    requires Chain(mem, ws, free, frees) && NoRepeat(frees) && k < |frees|
    requires forall a :: a in frees && a != frees[k] ==> Load(mem', a, ws) == Load(mem, a, ws)
    requires Load(mem', frees[k], ws) == free
    ensures !Chain(mem', ws, frees[k], g)
    decreases |g|
  {
    if Chain(mem', ws, frees[k], g) {
      assert frees[k] != 0 by { NonZero(mem, ws, free, frees, k); }
      var h := Along(mem, mem', ws, free, frees, k, 0, g[1..]);
      DoubleFreeLoops(mem, mem', ws, free, frees, k, h);
    }
  }

  lemma {:induction false} NonZero(mem: Bytes, ws: nat, free: int, frees: seq<nat>, k: nat)
    requires Chain(mem, ws, free, frees) && k < |frees|
    ensures frees[k] != 0
    decreases k
  {
    if k > 0 {
      NonZero(mem, ws, Load(mem, frees[0], ws), frees[1..], k - 1);
    }
  }

  /** The value that leads to element i of the list. */
  lemma {:induction false} LinkTo(mem: Bytes, ws: nat, free: int, frees: seq<nat>, i: nat)
    requires Chain(mem, ws, free, frees) && i < |frees|
    ensures frees[i] == if i == 0 then free else Load(mem, frees[i - 1], ws)
    decreases i
  {
    if i > 0 {
      LinkTo(mem, ws, Load(mem, frees[0], ws), frees[1..], i - 1);
    }
  }

  /** Following the list from element i to element k, in the new memory. */
  lemma {:induction false} Along(mem: Bytes, mem': Bytes, ws: nat, free: int, frees: seq<nat>, k: nat, i: nat, g: seq<nat>)
    returns (h: seq<nat>)
    requires Chain(mem, ws, free, frees) && NoRepeat(frees) && i <= k < |frees|
    requires forall a :: a in frees && a != frees[k] ==> Load(mem', a, ws) == Load(mem, a, ws)
    requires Chain(mem', ws, frees[i], g)
    ensures |h| <= |g| && Chain(mem', ws, frees[k], h)
    decreases k - i
  {
    if i == k {
      h := g;
    } else {
      NonZero(mem, ws, free, frees, i);
      LinkTo(mem, ws, free, frees, i + 1);
      assert frees[i] != frees[k];
      h := Along(mem, mem', ws, free, frees, k, i + 1, g[1..]);
    }
  }

  // ----- over every run -----

  /** An object lies where the heap says: aligned, above the nil guard, inside the memory. */
  ghost predicate Placed(h: Heap, o: Obj)
    reads h
  {
    h.ws > 0 && o.at >= h.guard > 0 && o.at % h.ws == 0 && o.size > 0 && o.at + o.size <= h.memNext <= |h.memory|
  }

  /** The region an object lies in: itself, or its page. */
  lemma HomeOf(h: Heap, o: Obj) returns (r: nat, kind: int)
    requires h.Valid() && o in h.Live()
    ensures r in h.regions && r <= o.at && o.at + o.size <= r + h.regions[r] && h.ws > 0 && o.at % h.ws == 0 && o.size > 0
    ensures kind == 0 ==> r in h.plain && r == o.at && o.size == h.regions[r]
    ensures kind == 1 ==> r in h.smallPlan.pages && o in LiveOf(h.smallPlan, h.small.size)
    ensures kind == 2 ==> r in h.largePlan.pages && o in LiveOf(h.largePlan, h.large.size)
    ensures 0 <= kind <= 2
  {
    hide Chain;
    if o in PlainObjs(h.plain, h.regions) {
      r, kind := o.at, 0;
    } else if o in LiveOf(h.smallPlan, h.small.size) {
      r :| r in h.smallPlan.pages && OnPage(o.at, h.small.size, r);
      kind := 1;
    } else {
      r :| r in h.largePlan.pages && OnPage(o.at, h.large.size, r);
      kind := 2;
    }
  }

  /** At every moment: live objects do not overlap, are aligned, lie above the nil guard and
      inside the memory. */
  lemma LiveApart(h: Heap, a: Obj, b: Obj)
    requires h.Valid() && a in h.Live() && b in h.Live() && a != b
    ensures Apart(a.at, a.size, b.at, b.size) && Placed(h, a) && Placed(h, b)
  {
    hide Chain;
    var r, k := HomeOf(h, a);
    var q, l := HomeOf(h, b);
    if r != q {
      assert Apart(r, h.regions[r], q, h.regions[q]);
    } else {
      SameHome(h, a, b, r, k, l);
    }
  }

  lemma SameHome(h: Heap, a: Obj, b: Obj, r: nat, k: int, l: int)
    requires h.Valid() && a != b && r in h.regions && 0 <= k <= 2 && 0 <= l <= 2
    requires k == 0 ==> r in h.plain && r == a.at && a.size == h.regions[r]
    requires k == 1 ==> r in h.smallPlan.pages && a in LiveOf(h.smallPlan, h.small.size)
    requires k == 2 ==> r in h.largePlan.pages && a in LiveOf(h.largePlan, h.large.size)
    requires l == 0 ==> r in h.plain && r == b.at && b.size == h.regions[r]
    requires l == 1 ==> r in h.smallPlan.pages && b in LiveOf(h.smallPlan, h.small.size)
    requires l == 2 ==> r in h.largePlan.pages && b in LiveOf(h.largePlan, h.large.size)
    ensures Apart(a.at, a.size, b.at, b.size)
  {
    hide Chain, RegionsOK;
    assert k == l;
    if k == 1 {
      assert SlotsApart(h.smallPlan.slots, h.small.size);
    } else if k == 2 {
      assert SlotsApart(h.largePlan.slots, h.large.size);
    }
  }

  /** An object of one slab is not also a plain object or one of the other slab. */
  lemma LiveOnce(h: Heap, big: bool, a: nat)
    requires h.Valid() && Obj(a, h.SlabOf(big).size) in LiveOf(h.PlanOf(big), h.SlabOf(big).size)
    ensures Obj(a, h.SlabOf(big).size) !in PlainObjs(h.plain, h.regions)
    ensures Obj(a, h.SlabOf(big).size) !in LiveOf(h.PlanOf(!big), h.SlabOf(!big).size)
    ensures exists r :: r in h.PlanOf(big).pages && OnPage(a, h.SlabOf(big).size, r)
  {
    hide Chain;
    var s, p := h.SlabOf(big), h.PlanOf(big);
    var r :| r in p.pages && OnPage(a, s.size, r);
    assert forall x :: x in h.regions && x != r ==> Apart(x, h.regions[x], r, PAGE);
  }

  lemma LivePlaced(h: Heap, o: Obj)
    requires h.Valid() && o in h.Live()
    ensures Placed(h, o)
  {
    hide Chain;
    var r, k := HomeOf(h, o);
  }

  /** The free slots of both slabs are apart from every live object. */
  lemma FreeApart(h: Heap, big: bool, o: Obj, f: nat, mem: Bytes)
    requires h.ValidWith(mem) && o in h.Live() && f in h.PlanOf(big).frees
    ensures Apart(o.at, o.size, f, h.ws)
  {
    hide Chain;
    var s, p := h.SlabOf(big), h.PlanOf(big);
    assert f in p.slots;
    var q :| q in p.pages && OnPage(f, s.size, q);
    if o in PlainObjs(h.plain, h.regions) {
      assert o.at != q && Apart(o.at, o.size, q, PAGE);
    } else if o in LiveOf(p, s.size) {
      assert Apart(o.at, s.size, f, s.size);
    } else {
      var s', p' := h.SlabOf(!big), h.PlanOf(!big);
      var r :| r in p'.pages && OnPage(o.at, s'.size, r);
      assert Apart(r, PAGE, q, PAGE);
    }
  }

  lemma StoreKeeps(h: Heap, mem: Bytes, mem': Bytes, o: Obj, a: nat, n: nat)
    requires h.ValidWith(mem) && o in h.Live() && o.at <= a && a + n <= o.at + o.size && DiffersIn(mem, mem', a, n)
    ensures h.ValidWith(mem')
  {
    hide Chain, LiveOf, PlainObjs;
    forall f | f in h.smallPlan.frees
      ensures Load(mem', f, h.ws) == Load(mem, f, h.ws)
    {
      FreeApart(h, false, o, f, mem);
      LoadOutside(mem, mem', a, n, f, h.ws);
    }
    forall f | f in h.largePlan.frees
      ensures Load(mem', f, h.ws) == Load(mem, f, h.ws)
    {
      FreeApart(h, true, o, f, mem);
      LoadOutside(mem, mem', a, n, f, h.ws);
    }
    hide SlabOK;
    SlabKeeps(mem, mem', h.ws, h.small, h.smallPlan);
    SlabKeeps(mem, mem', h.ws, h.large, h.largePlan);
  }
}
