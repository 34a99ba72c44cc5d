/** What loads, stores and globals of the generated code do to memory, byte by byte. */
module NativeMemory {
  import opened Ir
  import opened Eager
  import opened Native
  import opened Pending
  import opened PendingInsts
  import opened PendingRuns

  // ----- bytes -----

  /** The word whose bytes are at a to a + 7, least significant first. */
  function WordAt(mem: Mem, a: int): int {
    Byte(mem, a) + 0x100 * Byte(mem, a + 1) + 0x1_0000 * Byte(mem, a + 2) + 0x100_0000 * Byte(mem, a + 3)
    + 0x1_0000_0000 * Byte(mem, a + 4) + 0x100_0000_0000 * Byte(mem, a + 5)
    + 0x1_0000_0000_0000 * Byte(mem, a + 6) + 0x100_0000_0000_0000 * Byte(mem, a + 7)
  }

  lemma PeekByte(mem: Mem, a: int)
    ensures Peek(mem, a, 1) == Byte(mem, a)
  {
  }

  lemma PeekWord(mem: Mem, a: int)
    ensures Peek(mem, a, 8) == WordAt(mem, a)
  {
    PeekSplit(mem, a);
    PeekFour(mem, a);
    PeekFour(mem, a + 4);
  }

  lemma PeekFour(mem: Mem, a: int)
    ensures Peek(mem, a, 4)
         == Byte(mem, a) + 0x100 * Byte(mem, a + 1) + 0x1_0000 * Byte(mem, a + 2) + 0x100_0000 * Byte(mem, a + 3)
  {
    assert Peek(mem, a, 4) == Byte(mem, a) + 256 * Peek(mem, a + 1, 3);
    assert Peek(mem, a + 1, 3) == Byte(mem, a + 1) + 256 * Peek(mem, a + 2, 2);
    assert Peek(mem, a + 2, 2) == Byte(mem, a + 2) + 256 * Peek(mem, a + 3, 1);
    assert Peek(mem, a + 3, 1) == Byte(mem, a + 3);
  }

  lemma {:induction false} PokeAbove(mem: Mem, a: int, v: int, n: nat, b: int)
    requires b >= a + n
    ensures Byte(Poke(mem, a, v, n), b) == Byte(mem, b)
    decreases n
  {
    if n > 0 {
      PokeAbove(mem[a := v % 256], a + 1, v / 256, n - 1, b);
    }
  }

  /** A write changes no byte outside its range. */
  lemma PokeOutside(mem: Mem, a: int, v: int, n: nat, b: int)
    requires b < a || b >= a + n
    ensures Byte(Poke(mem, a, v, n), b) == Byte(mem, b)
  {
    if b < a {
      PokeBelow(mem, a, v, n, b);
    } else {
      PokeAbove(mem, a, v, n, b);
    }
  }

  lemma PokeFirst(mem: Mem, a: int, v: int, n: nat)
    requires n > 0
    ensures Byte(Poke(mem, a, v, n), a) == v % 256
    ensures Poke(mem, a, v, n) == Poke(mem[a := v % 256], a + 1, v / 256, n - 1)
  {
    PokeBelow(mem[a := v % 256], a + 1, v / 256, n - 1, a);
  }

  /** The four bytes that a write of at least four puts first. */
  lemma PokeFour(mem: Mem, a: int, v: int, n: nat) returns (m: Mem)
    requires n >= 4
    ensures Poke(mem, a, v, n) == Poke(m, a + 4, v / 0x1_0000_0000, n - 4)
    ensures var t := Poke(mem, a, v, n);
      && Byte(t, a) == v % 256 && Byte(t, a + 1) == v / 0x100 % 256
      && Byte(t, a + 2) == v / 0x1_0000 % 256 && Byte(t, a + 3) == v / 0x100_0000 % 256
  {
    hide Poke, Byte;
    var m1 := mem[a := v % 256];
    var m2 := m1[a + 1 := v / 256 % 256];
    var m3 := m2[a + 2 := v / 256 / 256 % 256];
    m := m3[a + 3 := v / 256 / 256 / 256 % 256];
    PokeFirst(mem, a, v, n);
    PokeFirst(m1, a + 1, v / 256, n - 1);
    PokeFirst(m2, a + 2, v / 256 / 256, n - 2);
    PokeFirst(m3, a + 3, v / 256 / 256 / 256, n - 3);
    Shifts(v);
  }

  lemma Shifts(v: int)
    ensures v / 256 / 256 == v / 0x1_0000 && v / 256 / 256 / 256 == v / 0x100_0000
    ensures v / 256 / 256 / 256 / 256 == v / 0x1_0000_0000
  {
  }

  /** The bytes at a to a + 7 of the memory are those of v. */
  ghost predicate HoldsWord(t: Mem, a: int, v: int) {
    && Byte(t, a) == v % 256 && Byte(t, a + 1) == v / 0x100 % 256
    && Byte(t, a + 2) == v / 0x1_0000 % 256 && Byte(t, a + 3) == v / 0x100_0000 % 256
    && Byte(t, a + 4) == v / 0x1_0000_0000 % 256 && Byte(t, a + 5) == v / 0x100_0000_0000 % 256
    && Byte(t, a + 6) == v / 0x1_0000_0000_0000 % 256 && Byte(t, a + 7) == v / 0x100_0000_0000_0000 % 256
  }

  lemma PokeWord(mem: Mem, a: int, v: int)
    ensures HoldsWord(Poke(mem, a, v, 8), a, v)
  {
    hide Poke, Byte;
    var m := PokeFour(mem, a, v, 8);
    var h := v / 0x1_0000_0000;
    var m' := PokeFour(m, a + 4, h, 4);
    HighShifts(v);
  }

  lemma HighShifts(v: int)
    ensures var h := v / 0x1_0000_0000;
      && h / 0x100 == v / 0x100_0000_0000 && h / 0x1_0000 == v / 0x1_0000_0000_0000
      && h / 0x100_0000 == v / 0x100_0000_0000_0000
  {
  }

  // ----- loads and stores -----

  /** The code has run and left x on the stack in place of the pointer. */
  ghost predicate Gives(w: World, o: Op, p: Pend, n: NState, s: XState, x: int)
    requires s.stack != []
  {
    var r := ExecAll(w, OpCode(X64, o, p).0, n);
    r.Some? && Refines(OpCode(X64, o, p).1, r.value, s.(stack := s.stack[..|s.stack| - 1] + [x]))
  }

  /** A load of one byte leaves exactly the byte addressed, every other load the word whose
      eight bytes start there; through a nil pointer both leave 0. */
  lemma LoadGives(w: World, size: int, p: Pend, n: NState, s: XState)
    requires Refines(p, n, s) && s.stack != []
    ensures var a := s.stack[|s.stack| - 1];
      && (a == 0 ==> Gives(w, Load(size), p, n, s, 0))
      && (a != 0 && size == 1 ==> Gives(w, Load(size), p, n, s, Byte(s.mem, a)))
      && (a != 0 && size != 1 ==> Gives(w, Load(size), p, n, s, WordAt(s.mem, a)))
  {
    hide ExecAll, OpCode, Peek, Byte, WordAt;
    OpRefines(w, Load(size), p, n, s);
    var a := s.stack[|s.stack| - 1];
    SameAddress(p, n, s, a);
    PeekByte(s.mem, a);
    PeekWord(s.mem, a);
  }

  lemma SameAddress(p: Pend, n: NState, s: XState, a: int)
    requires Refines(p, n, s) && a in s.stack
    ensures 0 <= a < TWO64 && Wrapped(a) == a && Wrapped(a + 0) == a
  {
  }

  /** Length and capacity are the second and the third word of a header; a nil slice has none. */
  lemma HeaderGives(w: World, o: Op, p: Pend, n: NState, s: XState)
    requires (o.Len? || o.Cap?) && Refines(p, n, s) && s.stack != []
    requires 0 < s.stack[|s.stack| - 1] ==> s.stack[|s.stack| - 1] + 16 < TWO64
    ensures var a := s.stack[|s.stack| - 1];
      Gives(w, o, p, n, s, if a == 0 then 0 else WordAt(s.mem, a + (if o.Len? then 8 else 16)))
  {
    hide ExecAll, OpCode, Effect, WordAt, Refines;
    OpRefines(w, o, p, n, s);
    SameAddress(p, n, s, s.stack[|s.stack| - 1]);
    HeaderEffect(w, o, s);
  }

  lemma HeaderEffect(w: World, o: Op, s: XState)
    requires (o.Len? || o.Cap?) && s.stack != [] && 0 <= s.stack[|s.stack| - 1]
    requires 0 < s.stack[|s.stack| - 1] ==> s.stack[|s.stack| - 1] + 16 < TWO64
    ensures var a := s.stack[|s.stack| - 1];
      var x := if a == 0 then 0 else WordAt(s.mem, a + (if o.Len? then 8 else 16));
      Effect(w, o, s) == Some(s.(stack := s.stack[..|s.stack| - 1] + [x]))
  {
    hide Peek, WordAt;
    var a := s.stack[|s.stack| - 1];
    PeekWord(s.mem, a + 8);
    PeekWord(s.mem, a + 16);
    if o.Len? {
      assert a != 0 ==> Wrapped(a + 8) == a + 8;
    } else {
      assert a != 0 ==> Wrapped(a + 16) == a + 16;
    }
  }

  /** A store of one byte changes exactly the byte addressed, every other store exactly the eight
      bytes from there on; through a nil pointer both fault. */
  lemma StoreGives(w: World, size: int, p: Pend, n: NState, s: XState)
    requires Refines(p, n, s) && |s.stack| >= 2
    ensures var k := |s.stack|;
      var a, v, r := s.stack[k - 1], s.stack[k - 2], ExecAll(w, OpCode(X64, Store(size), p).0, n);
      && (a == 0 ==> r.None?)
      && (a != 0 ==> r.Some? && Refines(OpCode(X64, Store(size), p).1, r.value, s.(stack := s.stack[..k - 2], mem := r.value.mem)))
      && (a != 0 && size == 1 ==> Byte(r.value.mem, a) == v % 256 && forall b :: b != a ==> Byte(r.value.mem, b) == Byte(s.mem, b))
      && (a != 0 && size != 1 ==>
            && HoldsWord(r.value.mem, a, v)
            && forall b :: !(a <= b < a + 8) ==> Byte(r.value.mem, b) == Byte(s.mem, b))
  {
    hide ExecAll, OpCode, Poke, Byte, HoldsWord;
    OpRefines(w, Store(size), p, n, s);
    var k := |s.stack|;
    var a, v := s.stack[k - 1], s.stack[k - 2];
    SameAddress(p, n, s, a);
    PokeFirst(s.mem, a, v, 1);
    PokeWord(s.mem, a, v);
    forall b | b != a
      ensures Byte(Poke(s.mem, a, v, 1), b) == Byte(s.mem, b)
    {
      PokeOutside(s.mem, a, v, 1, b);
    }
    forall b | !(a <= b < a + 8)
      ensures Byte(Poke(s.mem, a, v, 8), b) == Byte(s.mem, b)
    {
      PokeOutside(s.mem, a, v, 8, b);
    }
  }

  // ----- globals -----

  /** The globals k and j lie in memory, above address 0. */
  predicate HasGlobals(w: World, k: int, j: int) {
    && 0 < w.globals + 8 * k && w.globals + 8 * k + 8 <= TWO64
    && 0 < w.globals + 8 * j && w.globals + 8 * j + 8 <= TWO64
  }

  /** A global holds what was stored in it last; storing in it changes no other global. */
  lemma GlobalBack(w: World, k: int, j: int, s: XState)
    requires HasGlobals(w, k, j) && s.stack != [] && 0 <= s.stack[|s.stack| - 1] < TWO64
    ensures var v, below := s.stack[|s.stack| - 1], s.stack[..|s.stack| - 1];
      var t := Effect(w, GlobalSet(k), s);
      && t.Some? && t.value.stack == below && t.value.locals == s.locals
      && Effect(w, GlobalGet(k), t.value) == Some(t.value.(stack := below + [v]))
      && (j != k ==> Effect(w, GlobalGet(j), t.value) == Some(t.value.(stack := below + [WordAt(s.mem, w.globals + 8 * j)])))
  {
    hide Peek, Poke, WordAt, Byte;
    var a, b, v := w.globals + 8 * k, w.globals + 8 * j, s.stack[|s.stack| - 1];
    WordLimit();
    PeekPoke(s.mem, a, v, 8);
    if j != k {
      WordElsewhere(s.mem, a, b, v);
      PeekWord(Poke(s.mem, a, v, 8), b);
    }
  }

  lemma WordLimit()
    ensures Limit(8) == TWO64
  {
    assert Limit(4) == TWO32;
    assert Limit(8) == 256 * Limit(7) && Limit(7) == 256 * Limit(6) && Limit(6) == 256 * Limit(5) &&
             Limit(5) == 256 * Limit(4);
  }

  lemma WordElsewhere(mem: Mem, a: int, b: int, v: int)
    requires b + 8 <= a || a + 8 <= b
    ensures WordAt(Poke(mem, a, v, 8), b) == WordAt(mem, b)
  {
    hide Poke, Byte;
    forall c | b <= c < b + 8
      ensures Byte(Poke(mem, a, v, 8), c) == Byte(mem, c)
    {
      PokeOutside(mem, a, v, 8, c);
    }
  }
}
