/** The IR as the native code generator takes it: the instructions of `Ir` and those that
    touch memory, globals and other functions, on a machine that pushes every value at once.

    Memory is a map of bytes; what another function does is given by the `World`, which
    says nothing about it but that it takes its arguments and gives back words. */
module Eager {
  import opened Ir

  /** Bytes by address; a byte that was never written is 0. */
  type Mem = map<int, int>

  type Word = x: int | 0 <= x < TWO64

  const WORD: nat := 8

  datatype Impl = Impl(id: int, f: string)

  datatype Op =
    | Basic(i: Inst)
    | Load(size: int)
    | Store(size: int)
    | GlobalGet(idx: int)
    | GlobalSet(idx: int)
    | Offset(k: int)
    | Len
    | Cap
    | Invoke(f: string, n: nat)
      /** The methods that may be meant, by type id, and the number of arguments. */
    | IfaceCall(es: seq<Impl>, n: nat)

  datatype Reply = Reply(results: seq<Word>, mem: Mem)

  /** Where the globals are, what a callee does with its arguments and the memory (None: it
      never comes back), and what it leaves in the registers. */
  datatype World = World(
    globals: int,
    callee: (string, seq<int>, Mem) -> Option<Reply>,
    leftovers: (string, Mem) -> (int, int, int))

  datatype XState = XState(stack: seq<int>, locals: seq<int>, mem: Mem)

  datatype XConf = Going(pc: nat, s: XState) | Ended(result: seq<int>, mem: Mem) | Faulted

  function Wrapped(x: int): int {
    x % TWO64
  }

  // ----- memory -----

  function Byte(mem: Mem, a: int): (r: int)
    ensures 0 <= r < 256
  {
    if a in mem then mem[a] % 256 else 0
  }

  /** n bytes, least significant first. */
  function Peek(mem: Mem, a: int, n: nat): int
    decreases n
  {
    if n == 0 then 0 else Byte(mem, a) + 256 * Peek(mem, a + 1, n - 1)
  }

  function Poke(mem: Mem, a: int, v: int, n: nat): Mem
    decreases n
  {
    if n == 0 then mem else Poke(mem[a := v % 256], a + 1, v / 256, n - 1)
  }

  /** Only bytes are narrow; every other width is a whole word. */
  function Width(size: int): (n: nat)
    ensures n == 1 || n == WORD
  {
    if size == 1 then 1 else WORD
  }

  lemma PeekFits(mem: Mem, a: int, n: nat)
    requires n == 1 || n == WORD
    ensures 0 <= Peek(mem, a, n) < TWO64
  {
    if n == WORD {
      PeekHalf(mem, a);
      PeekHalf(mem, a + 4);
      PeekSplit(mem, a);
    }
  }

  lemma PeekHalf(mem: Mem, a: int)
    ensures 0 <= Peek(mem, a, 4) < TWO32
  {
    assert Peek(mem, a, 4) == Byte(mem, a) + 256 * Peek(mem, a + 1, 3);
    assert Peek(mem, a + 1, 3) == Byte(mem, a + 1) + 256 * Peek(mem, a + 2, 2);
    assert Peek(mem, a + 2, 2) == Byte(mem, a + 2) + 256 * Peek(mem, a + 3, 1);
    assert Peek(mem, a + 3, 1) == Byte(mem, a + 3);
  }

  lemma PeekSplit(mem: Mem, a: int)
    ensures Peek(mem, a, 8) == Peek(mem, a, 4) + TWO32 * Peek(mem, a + 4, 4)
  {
    PeekBeyond(mem, a, 4);
    PeekBeyond(mem, a + 1, 3);
    PeekBeyond(mem, a + 2, 2);
    PeekBeyond(mem, a + 3, 1);
  }

  lemma PeekBeyond(mem: Mem, a: int, k: nat)
    requires k >= 1
    ensures Peek(mem, a, k + 4) == Byte(mem, a) + 256 * Peek(mem, a + 1, k + 3)
    ensures Peek(mem, a, k) == Byte(mem, a) + 256 * Peek(mem, a + 1, k - 1)
  {
  }

  function Limit(n: nat): int {
    if n == 0 then 1 else 256 * Limit(n - 1)
  }

  /** A value that fits is read back. */
  lemma {:induction false} PeekPoke(mem: Mem, a: int, v: int, n: nat)
    requires 0 <= v < Limit(n)
    ensures Peek(Poke(mem, a, v, n), a, n) == v
    decreases n
  {
    if n > 0 {
      PokeBelow(mem[a := v % 256], a + 1, v / 256, n - 1, a);
      PeekPoke(mem[a := v % 256], a + 1, v / 256, n - 1);
    }
  }

  lemma {:induction false} PokeBelow(mem: Mem, a: int, v: int, n: nat, b: int)
    requires b < a
    ensures Byte(Poke(mem, a, v, n), b) == Byte(mem, b)
    decreases n
  {
    if n > 0 {
      PokeBelow(mem[a := v % 256], a + 1, v / 256, n - 1, b);
    }
  }

  lemma WordBack(mem: Mem, a: int, v: int)
    requires 0 <= v < TWO32
    ensures Peek(Poke(mem, a, v, WORD), a, WORD) == v
  {
    assert Limit(4) == TWO32;
    assert Limit(8) == 256 * Limit(7) && Limit(7) == 256 * Limit(6) && Limit(6) == 256 * Limit(5) &&
             Limit(5) == 256 * Limit(4);
    PeekPoke(mem, a, v, WORD);
  }

  /** Nothing is mapped at address 0. */
  function Read(mem: Mem, a: int, n: nat): Option<int> {
    if a == 0 then None else Some(Peek(mem, a, n))
  }

  function Written(mem: Mem, a: int, v: int, n: nat): Option<Mem> {
    if a == 0 then None else Some(Poke(mem, a, v, n))
  }

  /** A read through a nil pointer that the generated code looks out for: it gives 0. */
  function Guarded(mem: Mem, a: int, at: int, n: nat): Option<int> {
    if a == 0 then Some(0) else Read(mem, Wrapped(a + at), n)
  }

  // ----- one instruction -----

  function Core(s: XState): State {
    State(s.stack, s.locals)
  }

  function Around(s: XState, c: State): XState {
    s.(stack := c.stack, locals := c.locals)
  }

  predicate Transfers(o: Op) {
    o.Basic? && IsControl(o.i)
  }

  /** The top of the stack replaced, if there is something to replace it with. */
  function Replaced(s: XState, v: Option<int>): Option<XState>
    requires s.stack != []
  {
    if v.None? then None else Some(s.(stack := s.stack[..|s.stack| - 1] + [v.value]))
  }

  /** The callee takes the n topmost values. */
  function Called(w: World, f: string, n: nat, s: XState): Option<XState> {
    if |s.stack| < n then None
    else
      var k := |s.stack| - n;
      match w.callee(f, s.stack[k..], s.mem)
      case None => None
      case Some(r) => Some(s.(stack := s.stack[..k] + r.results, mem := r.mem))
  }

  function Method(es: seq<Impl>, id: int): Option<string> {
    if es == [] then None else if es[0].id == id then Some(es[0].f) else Method(es[1..], id)
  }

  /** The interface value below the arguments is replaced by what it holds, and the method
      of its type is called. */
  function Dispatched(w: World, es: seq<Impl>, n: nat, s: XState): Option<XState> {
    if |s.stack| <= n then None
    else
      var k := |s.stack| - n - 1;
      var box := s.stack[k];
      match Read(s.mem, Wrapped(box), WORD)
      case None => None
      case Some(id) =>
        match Read(s.mem, Wrapped(box + WORD), WORD)
        case None => None
        case Some(v) =>
          match Method(es, id)
          case None => None
          case Some(f) => Called(w, f, n + 1, s.(stack := s.stack[k := v]))
  }

  /** One instruction that does not transfer control; None where the program stops on a fault. */
  function Effect(w: World, o: Op, s: XState): Option<XState>
    requires !Transfers(o)
  {
    var n := |s.stack|;
    match o
    case Basic(i) => if CanRun(i, Core(s)) then Some(Around(s, Apply(Native64, i, Core(s)))) else None
    case Load(size) => if n == 0 then None else Replaced(s, Guarded(s.mem, s.stack[n - 1], 0, Width(size)))
    case Store(size) =>
      if n < 2 then None
      else (match Written(s.mem, Wrapped(s.stack[n - 1]), s.stack[n - 2], Width(size))
            case None => None
            case Some(mem) => Some(s.(stack := s.stack[..n - 2], mem := mem)))
    case GlobalGet(k) =>
      (match Read(s.mem, Wrapped(w.globals + 8 * k), WORD)
       case None => None
       case Some(v) => Some(s.(stack := s.stack + [v])))
    case GlobalSet(k) =>
      if n == 0 then None
      else (match Written(s.mem, Wrapped(w.globals + 8 * k), s.stack[n - 1], WORD)
            case None => None
            case Some(mem) => Some(s.(stack := s.stack[..n - 1], mem := mem)))
    case Offset(k) => if n == 0 then None else Replaced(s, Some(Wrapped(s.stack[n - 1] + k)))
    case Len => if n == 0 then None else Replaced(s, Guarded(s.mem, s.stack[n - 1], 8, WORD))
    case Cap => if n == 0 then None else Replaced(s, Guarded(s.mem, s.stack[n - 1], 16, WORD))
    case Invoke(f, k) => Called(w, f, k, s)
    case IfaceCall(es, k) => Dispatched(w, es, k, s)
  }

  // ----- runs -----

  function OpLabelPos(code: seq<Op>, l: int): (p: nat)
    ensures p == 0 || p < |code|
  {
    if code == [] then 0
    else if code[|code| - 1] == Basic(Label(l)) then |code| - 1
    else OpLabelPos(code[..|code| - 1], l)
  }

  function XStep(w: World, code: seq<Op>, c: XConf): XConf {
    if !c.Going? then c
    else if c.pc >= |code| then Ended(c.s.stack, c.s.mem)
    else
      var o := code[c.pc];
      var n := |c.s.stack|;
      if !Transfers(o) then
        match Effect(w, o, c.s) case Some(t) => Going(c.pc + 1, t) case None => Faulted
      else
        match o.i
        case Label(_) => Going(c.pc + 1, c.s)
        case Jmp(l) => Going(OpLabelPos(code, l), c.s)
        case JmpIf(l) =>
          if n == 0 then Faulted
          else Going(if c.s.stack[n - 1] != 0 then OpLabelPos(code, l) else c.pc + 1,
                     c.s.(stack := c.s.stack[..n - 1]))
        case JmpIfNot(l) =>
          if n == 0 then Faulted
          else Going(if c.s.stack[n - 1] == 0 then OpLabelPos(code, l) else c.pc + 1,
                     c.s.(stack := c.s.stack[..n - 1]))
        case Return(_) => Ended(c.s.stack, c.s.mem)
  }

  function XRun(w: World, code: seq<Op>, c: XConf, n: nat): XConf
    decreases n
  {
    if n == 0 then c else XRun(w, code, XStep(w, code, c), n - 1)
  }

  lemma {:induction false} XRunAdd(w: World, code: seq<Op>, c: XConf, a: nat, b: nat)
    ensures XRun(w, code, c, a + b) == XRun(w, code, XRun(w, code, c, a), b)
    decreases a
  {
    if a > 0 {
      XRunAdd(w, code, XStep(w, code, c), a - 1, b);
    }
  }

  lemma {:induction false} XRunHalted(w: World, code: seq<Op>, c: XConf, n: nat)
    requires !c.Going?
    ensures XRun(w, code, c, n) == c
    decreases n
  {
    if n > 0 {
      XRunHalted(w, code, c, n - 1);
    }
  }

  lemma XEndsOnce(w: World, code: seq<Op>, c: XConf, a: nat, b: nat)
    requires !XRun(w, code, c, a).Going? && !XRun(w, code, c, b).Going?
    ensures XRun(w, code, c, a) == XRun(w, code, c, b)
  {
    if a <= b {
      XRunAdd(w, code, c, a, b - a);
      XRunHalted(w, code, XRun(w, code, c, a), b - a);
    } else {
      XRunAdd(w, code, c, b, a - b);
      XRunHalted(w, code, XRun(w, code, c, b), a - b);
    }
  }

  // ----- labels -----

  ghost predicate DistinctOps(code: seq<Op>) {
    forall i, j :: 0 <= i < j < |code| && code[i].Basic? && code[i].i.Label? ==> code[j] != code[i]
  }

  lemma {:induction false} OpLabelFound(code: seq<Op>, p: nat)
    requires p < |code| && code[p].Basic? && code[p].i.Label? && DistinctOps(code)
    ensures OpLabelPos(code, code[p].i.l) == p
  {
    if p != |code| - 1 {
      var c := code[..|code| - 1];
      assert c[p] == code[p];
      OpLabelFound(c, p);
    }
  }

  // ----- the instructions of `Ir` alone -----

  function Lift(code: seq<Inst>): (r: seq<Op>)
    ensures |r| == |code| && forall i :: 0 <= i < |code| ==> r[i] == Basic(code[i])
  {
    seq(|code|, i requires 0 <= i < |code| => Basic(code[i]))
  }
}
