/** Dead-function elimination: a worklist over call edges keeps, in order, the functions in
    the least set that contains the roots and is closed under the edges; a program whose
    functions have distinct names runs the same before and after. */
module Dce {
  import opened Ir

  /** What elimination looks at in an instruction. */
  datatype Op = Call(name: string) | Intrinsic(name: string) | Convert(name: string) | Iface(name: string) | Other(k: int)

  datatype Func = Func(name: string, code: seq<Op>)

  /** Functions in order, and the function of each method of the method table. */
  datatype Module = Module(funcs: seq<Func>, methods: map<string, string>)

  const COMPOSITE := "builtin.composite."
  const IMPLICIT: seq<string> := ["runtime.Alloc", "runtime.Makestring", "runtime.runtimePanic"]

  predicate IsComposite(name: string) {
    |name| > 18 && name[..18] == COMPOSITE
  }

  predicate IsInit(name: string) {
    var n := |name|;
    n >= 5 && ((n >= 13 && name[n - 13..] == ".init$globals") || name[n - 5..] == ".init")
  }

  /** The function an instruction may lead to without going through the method table. */
  function Edge(o: Op): set<string> {
    match o
    case Call(n) => if IsComposite(n) then {} else {n}
    case Intrinsic(n) => if n == "Tostring" then {"runtime.IntToString"} else {}
    case Convert(n) =>
      if n == "string" then {"runtime.BytesToString"}
      else if n == "[]byte" then {"runtime.StringToBytes"} else {}
    case _ => {}
  }

  function Edges(code: seq<Op>): set<string> {
    if code == [] then {} else Edges(code[..|code| - 1]) + Edge(code[|code| - 1])
  }

  /** The index of functions by name: the last of several with one name wins. */
  function Find(fs: seq<Func>, name: string): (r: Option<Func>)
    ensures r.Some? ==> r.value in fs && r.value.name == name
  {
    if fs == [] then None
    else if fs[|fs| - 1].name == name then Some(fs[|fs| - 1])
    else Find(fs[..|fs| - 1], name)
  }

  function EdgesOf(fs: seq<Func>, name: string): set<string> {
    match Find(fs, name) case Some(f) => Edges(f.code) case None => {}
  }

  /** Where the search starts. */
  function Roots(p: Module): set<string> {
    set f | f in p.funcs && IsRoot(p, f.name) :: f.name
  }

  predicate IsRoot(p: Module, n: string) {
    n == "main.main" || IsInit(n) || n in p.methods.Values || n in IMPLICIT
  }

  ghost predicate Closed(fs: seq<Func>, S: set<string>) {
    forall n :: n in S ==> EdgesOf(fs, n) <= S
  }

  /** R is the least set with the roots that is closed under edges. */
  ghost predicate IsReach(p: Module, R: set<string>) {
    && Roots(p) <= R && Closed(p.funcs, R)
    && forall S: set<string> :: Roots(p) <= S && Closed(p.funcs, S) ==> R <= S
  }

  lemma ReachUnique(p: Module, R: set<string>, R': set<string>)
    requires IsReach(p, R) && IsReach(p, R')
    ensures R == R'
  {
  }

  function Keep(fs: seq<Func>, R: set<string>): (r: seq<Func>)
    ensures forall f :: f in r <==> f in fs && f.name in R
  {
    if fs == [] then []
    else
      var n := |fs| - 1;
      Keep(fs[..n], R) + (if fs[n].name in R then [fs[n]] else [])
  }

  // ----- the elimination, in place -----

  /** Every name that can ever enter the worklist. */
  function Universe(fs: seq<Func>): set<string> {
    if fs == [] then {}
    else Universe(fs[..|fs| - 1]) + {fs[|fs| - 1].name} + Edges(fs[|fs| - 1].code)
  }

  lemma {:induction false} UniverseHas(fs: seq<Func>, f: Func)
    requires f in fs
    ensures f.name in Universe(fs) && Edges(f.code) <= Universe(fs)
  {
    var n := |fs| - 1;
    if f != fs[n] {
      assert f in fs[..n];
      UniverseHas(fs[..n], f);
    }
  }

  lemma {:induction false} Finds(fs: seq<Func>, f: Func)
    requires f in fs
    ensures Find(fs, f.name).Some?
  {
    var n := |fs| - 1;
    if f.name != fs[n].name {
      assert f in fs[..n];
      Finds(fs[..n], f);
    }
  }

  class IRModule {
    var funcs: seq<Func>
    var methods: map<string, string>
    /** Working state of the search. */
    var reachable: set<string>
    var worklist: seq<string>

    constructor (p: Module)
      ensures Value() == p
    {
      funcs, methods, reachable, worklist := p.funcs, p.methods, {}, [];
    }

    function Value(): Module
      reads this
    {
      Module(funcs, methods)
    }

    /** Reached names are wanted in any closed set, those not on the worklist are done. */
    ghost predicate Searching()
      reads this
    {
      && reachable <= Universe(funcs)
      && (forall n :: n in worklist ==> n in reachable)
      && (forall n :: n in reachable && n !in worklist ==> EdgesOf(funcs, n) <= reachable)
      && (forall S: set<string> :: Roots(Value()) <= S && Closed(funcs, S) ==> reachable <= S)
    }

    method AddRoot(name: string)
      requires Searching() && IsRoot(Value(), name)
      modifies `reachable, `worklist
      ensures Searching() && old(reachable) <= reachable
      ensures (exists f :: f in funcs && f.name == name) ==> name in reachable
    {
      var found := Find(funcs, name);
      if exists f :: f in funcs && f.name == name {
        var f :| f in funcs && f.name == name;
        Finds(funcs, f);
      }
      if found.Some? && name !in reachable {
        UniverseHas(funcs, found.value);
        assert name in Roots(Value());
        reachable := reachable + {name};
        worklist := worklist + [name];
      }
    }

    /** The same while the function of one name is being scanned. */
    ghost predicate Scanning(from: string)
      reads this
    {
      && reachable <= Universe(funcs) && from in reachable
      && (forall n :: n in worklist ==> n in reachable)
      && (forall n :: n in reachable && n !in worklist && n != from ==> EdgesOf(funcs, n) <= reachable)
      && (forall S: set<string> :: Roots(Value()) <= S && Closed(funcs, S) ==> reachable <= S)
    }

    /** A name found on an edge of the function that is being scanned. */
    method AddEdge(name: string, from: string)
      requires name in Universe(funcs) && name in EdgesOf(funcs, from) && Scanning(from)
      modifies `reachable, `worklist
      ensures reachable == old(reachable) + {name} && Scanning(from)
      ensures reachable == old(reachable) ==> worklist == old(worklist)
    {
      if name !in reachable {
        reachable := reachable + {name};
        worklist := worklist + [name];
      } else {
        assert reachable + {name} == reachable;
      }
    }

    method EliminateDeadFunctions() returns (ghost R: set<string>)
      modifies this
      ensures IsReach(old(Value()), R) && forall S :: IsReach(old(Value()), S) ==> S == R
      ensures funcs == Keep(old(funcs), R) && methods == old(methods)
      ensures forall f :: f in old(funcs) && Unnamed(old(Value()), f.name) ==> f in funcs
    {
      hide EdgesOf, Universe, Keep, Roots, Unnamed, IsReach;
      reachable, worklist := {}, [];
      CollectRoots();
      while |worklist| > 0
        invariant Searching() && Value() == old(Value()) && Roots(Value()) <= reachable
        decreases |Universe(funcs) - reachable|, |worklist|
      {
        ScanNext();
      }
      R := reachable;
      ReachFound(R);
      forall S | IsReach(Value(), S)
        ensures S == R
      {
        ReachUnique(Value(), R, S);
      }
      forall f | f in funcs && Unnamed(Value(), f.name)
        ensures f in Keep(funcs, R)
      {
        UnnamedKept(Value(), R, f);
      }
      Sweep();
    }

    lemma ReachFound(R: set<string>)
      requires Searching() && R == reachable && worklist == [] && Roots(Value()) <= reachable
      ensures IsReach(Value(), R)
    {
    }

    /** Keep the reached functions, in order. */
    method Sweep()
      modifies `funcs
      ensures funcs == Keep(old(funcs), reachable)
    {
      var filtered: seq<Func> := [];
      assert funcs[..0] == [];
      for i := 0 to |funcs|
        invariant filtered == Keep(funcs[..i], reachable)
      {
        assert funcs[..i + 1][..i] == funcs[..i];
        if funcs[i].name in reachable {
          filtered := filtered + [funcs[i]];
        }
      }
      assert funcs[..|funcs|] == funcs;
      funcs := filtered;
    }

    method CollectRoots()
      requires reachable == {} && worklist == []
      modifies `reachable, `worklist
      ensures Searching() && Roots(Value()) <= reachable
    {
      hide Universe, EdgesOf, Closed, IsInit;
      AddRoot("main.main");
      AddInits();
      AddMethods();
      AddRoot(IMPLICIT[0]);
      AddRoot(IMPLICIT[1]);
      AddRoot(IMPLICIT[2]);
    }

    method AddInits()
      requires Searching()
      modifies `reachable, `worklist
      ensures Searching() && old(reachable) <= reachable
      ensures forall f :: f in funcs && IsInit(f.name) ==> f.name in reachable
    {
      hide Universe, EdgesOf, Closed, IsInit, Roots;
      for i := 0 to |funcs|
        invariant Searching() && old(reachable) <= reachable
        invariant forall j :: 0 <= j < i && IsInit(funcs[j].name) ==> funcs[j].name in reachable
      {
        if IsInit(funcs[i].name) {
          AddRoot(funcs[i].name);
        }
      }
    }

    method AddMethods()
      requires Searching()
      modifies `reachable, `worklist
      ensures Searching() && old(reachable) <= reachable
      ensures forall f :: f in funcs && f.name in methods.Values ==> f.name in reachable
    {
      var keys := methods.Keys;
      while keys != {}
        invariant Searching() && old(reachable) <= reachable && keys <= methods.Keys
        invariant forall k, f :: k in methods && k !in keys && f in funcs && f.name == methods[k] ==> f.name in reachable
        decreases |keys|
      {
        var k :| k in keys;
        AddRoot(methods[k]);
        keys := keys - {k};
      }
      forall f | f in funcs && f.name in methods.Values
        ensures f.name in reachable
      {
        var k :| k in methods && methods[k] == f.name;
      }
    }

    /** Take a name off the worklist and add the names its function leads to. */
    method ScanNext()
      requires Searching() && worklist != [] && Roots(Value()) <= reachable
      modifies `reachable, `worklist
      ensures Searching() && Roots(Value()) <= reachable
      ensures old(reachable) <= reachable
      ensures reachable != old(reachable) || |worklist| < old(|worklist|)
      ensures |Universe(funcs) - reachable| < old(|Universe(funcs) - reachable|)
              || (|Universe(funcs) - reachable| == old(|Universe(funcs) - reachable|) && |worklist| < old(|worklist|))
    {
      hide Universe, Closed, Roots, Edges;
      var n := |worklist| - 1;
      var name := worklist[n];
      ghost var rest := worklist[..n];
      assert forall x :: x in worklist ==> x in rest || x == name;
      worklist := worklist[..n];
      assert Scanning(name);
      var found := Find(funcs, name);
      if found.Some? {
        UniverseHas(funcs, found.value);
        ScanCode(found.value.code, name);
      }
      Fewer(Universe(funcs), old(reachable), reachable);
    }

    method ScanCode(body: seq<Op>, name: string)
      requires Scanning(name) && Edges(body) == EdgesOf(funcs, name) <= Universe(funcs)
      modifies `reachable, `worklist
      ensures Scanning(name) && old(reachable) <= reachable && Edges(body) <= reachable
      ensures reachable == old(reachable) ==> worklist == old(worklist)
    {
      hide Universe, EdgesOf, Closed, Roots, Edges;
      var i := 0;
      NoEdges(body);
      while i < |body|
        invariant 0 <= i <= |body| && Edges(body[..i]) <= reachable
        invariant Scanning(name) && old(reachable) <= reachable
        invariant reachable == old(reachable) ==> worklist == old(worklist)
      {
        EdgeIn(body, i);
        match body[i] {
          case Call(callee) =>
            if !IsComposite(callee) {
              AddEdge(callee, name);
            }
          case Intrinsic(intrinsic) =>
            if intrinsic == "Tostring" {
              AddEdge("runtime.IntToString", name);
            }
          case Convert(t) =>
            if t == "string" {
              AddEdge("runtime.BytesToString", name);
            } else if t == "[]byte" {
              AddEdge("runtime.StringToBytes", name);
            }
          case _ =>
        }
        i := i + 1;
      }
      assert body[..i] == body;
    }
  }

  lemma NoEdges(code: seq<Op>)
    ensures Edges(code[..0]) == {}
  {
  }

  lemma {:induction false} EdgeIn(code: seq<Op>, i: nat)
    requires i < |code|
    ensures Edge(code[i]) <= Edges(code) && Edges(code[..i + 1]) == Edges(code[..i]) + Edge(code[i])
    decreases |code|
  {
    assert code[..i + 1][..i] == code[..i];
    if i < |code| - 1 {
      EdgeIn(code[..|code| - 1], i);
    } else {
      assert code[..i + 1] == code;
    }
  }

  lemma Fewer(U: set<string>, a: set<string>, b: set<string>)
    requires a <= b <= U
    ensures if a == b then |U - b| == |U - a| else |U - b| < |U - a|
  {
    if a != b {
      var x :| x in b && x !in a;
      assert U - b <= U - a - {x};
      SubsetCard(U - b, U - a - {x});
    }
  }

  lemma {:induction false} SubsetCard(a: set<string>, b: set<string>)
    requires a <= b
    ensures |a| <= |b|
    decreases |a|
  {
    if a != {} {
      var x :| x in a;
      SubsetCard(a - {x}, b - {x});
    }
  }

  // ----- running a module -----

  /** What an instruction does, given the data: the data is opaque, control is not. */
  datatype Act = Next(d: int) | Goto(pc: nat, d: int) | Enter(name: string, d: int) | Leave(d: int) | Halt(d: int)

  type Machine = (Op, int) -> Act

  datatype Frame = Frame(code: seq<Op>, pc: nat)

  datatype RunState = Live(frames: seq<Frame>, d: int) | Over(d: int) | Missing(name: string)

  function Step(fs: seq<Func>, act: Machine, c: RunState): RunState {
    if !c.Live? then c
    else if c.frames == [] then Over(c.d)
    else
      var n := |c.frames| - 1;
      var top, below := c.frames[n], c.frames[..n];
      if top.pc >= |top.code| then Live(below, c.d)
      else match act(top.code[top.pc], c.d)
        case Next(d) => Live(below + [top.(pc := top.pc + 1)], d)
        case Goto(pc, d) => Live(below + [top.(pc := pc)], d)
        case Leave(d) => Live(below, d)
        case Halt(d) => Over(d)
        case Enter(name, d) =>
          match Find(fs, name)
          case None => Missing(name)
          case Some(f) => Live(below + [top.(pc := top.pc + 1), Frame(f.code, 0)], d)
  }

  function Run(fs: seq<Func>, act: Machine, c: RunState, n: nat): RunState
    decreases n
  {
    if n == 0 then c else Run(fs, act, Step(fs, act, c), n - 1)
  }

  predicate EndsWith(n: string, suffix: string) {
    |n| >= |suffix| && n[|n| - |suffix|..] == suffix
  }

  /** What executing an instruction may enter: a call its callee, unless it builds a composite
      literal in place; `Tostring` and the two conversions the runtime function behind them. */
  predicate MayEnter(o: Op, name: string) {
    match o
    case Call(n) => name == n && !(|n| > 18 && n[..18] == "builtin.composite.")
    case Intrinsic(n) => n == "Tostring" && name == "runtime.IntToString"
    case Convert(n) =>
      || (n == "string" && name == "runtime.BytesToString")
      || (n == "[]byte" && name == "runtime.StringToBytes")
    case Iface(_) => false
    case Other(_) => false
  }

  /** Functions that run without any instruction naming them: the program's entry, what
      initialises a package, the methods of the method table, what backends call by themselves. */
  predicate Unnamed(p: Module, n: string) {
    || n == "main.main" || EndsWith(n, ".init") || EndsWith(n, ".init$globals")
    || n in p.methods.Values
    || n == "runtime.Alloc" || n == "runtime.Makestring" || n == "runtime.runtimePanic"
  }

  /** A rule for instructions that enters nothing else: a method or a backend's function, or
      what the instruction itself may enter. */
  ghost predicate Honest(p: Module, act: Machine) {
    forall o, d :: act(o, d).Enter? ==> MayEnter(o, act(o, d).name) || Unnamed(p, act(o, d).name)
  }

  /** The edges are what instructions may enter. */
  lemma EdgeMeans(o: Op, name: string)
    ensures name in Edge(o) <==> MayEnter(o, name)
  {
  }

  /** The roots are the defined functions that run unnamed. */
  lemma RootMeans(p: Module, n: string)
    ensures IsRoot(p, n) <==> Unnamed(p, n)
  {
  }

  lemma {:induction false} EdgeFrom(code: seq<Op>, name: string)
    ensures name in Edges(code) <==> exists i :: 0 <= i < |code| && MayEnter(code[i], name)
    decreases |code|
  {
    if code != [] {
      var n := |code| - 1;
      EdgeFrom(code[..n], name);
      EdgeMeans(code[n], name);
      if name in Edges(code[..n]) {
        var i :| 0 <= i < n && MayEnter(code[..n][i], name);
        assert MayEnter(code[i], name);
      }
      if i :| 0 <= i < |code| && MayEnter(code[i], name) {
        if i < n {
          assert MayEnter(code[..n][i], name);
        }
      }
    }
  }

  /** Elimination keeps every function that runs unnamed. */
  lemma UnnamedKept(p: Module, R: set<string>, f: Func)
    requires IsReach(p, R) && f in p.funcs && Unnamed(p, f.name)
    ensures f in Keep(p.funcs, R)
  {
    RootMeans(p, f.name);
    assert f.name in Roots(p);
  }

  /** And with a function, every function that an instruction of its code may enter. */
  lemma EnteredKept(p: Module, R: set<string>, f: Func, i: nat, g: Func)
    requires IsReach(p, R) && f in Keep(p.funcs, R) && Find(p.funcs, f.name) == Some(f)
    requires i < |f.code| && MayEnter(f.code[i], g.name) && g in p.funcs
    ensures g in Keep(p.funcs, R)
  {
    EdgeFrom(f.code, g.name);
    assert EdgesOf(p.funcs, f.name) <= R;
  }

  /** And no other: what is kept runs unnamed, or something kept may enter it. */
  lemma KeptNeeded(p: Module, R: set<string>, g: Func)
    requires IsReach(p, R) && g in Keep(p.funcs, R) && !Unnamed(p, g.name)
    ensures exists f, i :: f in Keep(p.funcs, R) && 0 <= i < |f.code| && MayEnter(f.code[i], g.name)
  {
    var S := R - {g.name};
    RootMeans(p, g.name);
    assert Roots(p) <= S;
    if forall n :: n in S ==> g.name !in EdgesOf(p.funcs, n) {
      forall n | n in S
        ensures EdgesOf(p.funcs, n) <= S
      {
        assert EdgesOf(p.funcs, n) <= R;
      }
      assert Closed(p.funcs, S);
    }
    var n :| n in S && g.name in EdgesOf(p.funcs, n);
    var f := Find(p.funcs, n).value;
    EdgeFrom(f.code, g.name);
    var i :| 0 <= i < |f.code| && MayEnter(f.code[i], g.name);
    assert f in Keep(p.funcs, R);
  }

  /** Entering the name means the same before and after elimination. */
  ghost predicate Known(p: Module, R: set<string>, name: string) {
    name in R || Find(p.funcs, name) == None
  }

  ghost predicate Safe(p: Module, R: set<string>, code: seq<Op>) {
    forall e :: e in Edges(code) ==> Known(p, R, e)
  }

  lemma {:induction false} FindKeep(fs: seq<Func>, R: set<string>, name: string)
    ensures Find(Keep(fs, R), name) == if name in R then Find(fs, name) else None
  {
    if fs != [] {
      var n := |fs| - 1;
      FindKeep(fs[..n], R, name);
      var k := Keep(fs[..n], R);
      if fs[n].name in R {
        assert (k + [fs[n]])[..|k|] == k;
      } else {
        assert k + [] == k;
      }
    }
  }

  lemma SameEntry(p: Module, R: set<string>, name: string)
    requires Known(p, R, name)
    ensures Find(Keep(p.funcs, R), name) == Find(p.funcs, name)
  {
    FindKeep(p.funcs, R, name);
  }

  /** Functions found by a known name have safe code. */
  lemma EntrySafe(p: Module, R: set<string>, name: string)
    requires IsReach(p, R) && Known(p, R, name) && Find(p.funcs, name).Some?
    ensures Safe(p, R, Find(p.funcs, name).value.code)
  {
    assert EdgesOf(p.funcs, name) <= R;
  }

  lemma OpKnown(p: Module, R: set<string>, act: Machine, code: seq<Op>, pc: nat, d: int)
    requires IsReach(p, R) && Honest(p, act) && Safe(p, R, code) && pc < |code| && act(code[pc], d).Enter?
    ensures Known(p, R, act(code[pc], d).name)
  {
    var name := act(code[pc], d).name;
    EdgeIn(code, pc);
    EdgeMeans(code[pc], name);
    RootMeans(p, name);
    if name !in Edge(code[pc]) && Find(p.funcs, name).Some? {
      assert name in Roots(p);
    }
  }

  ghost predicate AllSafe(p: Module, R: set<string>, c: RunState) {
    c.Live? ==> forall i :: 0 <= i < |c.frames| ==> Safe(p, R, c.frames[i].code)
  }

  lemma StepSame(p: Module, R: set<string>, act: Machine, c: RunState)
    requires IsReach(p, R) && Honest(p, act) && AllSafe(p, R, c)
    ensures Step(Keep(p.funcs, R), act, c) == Step(p.funcs, act, c)
    ensures AllSafe(p, R, Step(p.funcs, act, c))
  {
    hide IsReach, Safe, Honest, Keep, Known;
    if c.Live? && c.frames != [] {
      var top := c.frames[|c.frames| - 1];
      if top.pc < |top.code| && act(top.code[top.pc], c.d).Enter? {
        var name := act(top.code[top.pc], c.d).name;
        OpKnown(p, R, act, top.code, top.pc, c.d);
        SameEntry(p, R, name);
        if Find(p.funcs, name).Some? {
          EntrySafe(p, R, name);
        }
      }
    }
  }

  lemma {:induction false} RunSame(p: Module, R: set<string>, act: Machine, c: RunState, n: nat)
    requires IsReach(p, R) && Honest(p, act) && AllSafe(p, R, c)
    ensures Run(Keep(p.funcs, R), act, c, n) == Run(p.funcs, act, c, n)
    decreases n
  {
    if n > 0 {
      StepSame(p, R, act, c);
      RunSame(p, R, act, Step(p.funcs, act, c), n - 1);
    }
  }

  /** The run of one function of the module as the backends start it: by its body. */
  function Start(f: Func, d: int): RunState {
    Live([Frame(f.code, 0)], d)
  }

  /** Starting at f, the module runs the same before and after elimination, on every data. */
  ghost predicate Preserved(p: Module, R: set<string>, f: Func) {
    forall act: Machine, d, n: nat :: Honest(p, act) ==>
      Run(Keep(p.funcs, R), act, Start(f, d), n) == Run(p.funcs, act, Start(f, d), n)
  }

  ghost predicate DistinctNames(fs: seq<Func>) {
    forall i, j :: 0 <= i < j < |fs| ==> fs[i].name != fs[j].name
  }

  lemma {:induction false} FindDistinct(fs: seq<Func>, f: Func)
    requires DistinctNames(fs) && f in fs
    ensures Find(fs, f.name) == Some(f)
  {
    var n := |fs| - 1;
    if f != fs[n] {
      var i :| 0 <= i < |fs| && fs[i] == f;
      assert fs[i].name != fs[n].name;
      assert f in fs[..n];
      FindDistinct(fs[..n], f);
    }
  }

  // ----- several functions of one name -----

  /** A function that shares its name with a later one leads nowhere that one does not. */
  predicate Covered(fs: seq<Func>) {
    forall f :: f in fs ==> Edges(f.code) <= EdgesOf(fs, f.name)
  }

  /** Then every function that is kept runs as before, the hidden ones included. */
  lemma CoveredPreserves(p: Module, R: set<string>, f: Func)
    requires Covered(p.funcs) && IsReach(p, R) && f in Keep(p.funcs, R)
    ensures Preserved(p, R, f)
  {
    assert EdgesOf(p.funcs, f.name) <= R;
    PreservedExactly(p, R, f);
  }

  /** Distinct names are one way to be covered. */
  lemma DistinctCovered(fs: seq<Func>)
    requires DistinctNames(fs)
    ensures Covered(fs)
  {
    forall f | f in fs
      ensures Edges(f.code) <= EdgesOf(fs, f.name)
    {
      FindDistinct(fs, f);
    }
  }

  /** With distinct names, main, every init function and every method run as before. */
  lemma EliminationPreserves(p: Module, R: set<string>, f: Func)
    requires DistinctNames(p.funcs) && IsReach(p, R) && f in p.funcs && Unnamed(p, f.name)
    ensures f in Keep(p.funcs, R) && Preserved(p, R, f)
  {
    UnnamedKept(p, R, f);
    DistinctCovered(p.funcs);
    CoveredPreserves(p, R, f);
  }

  /** Where it is not so, meaning is lost: a function only a hidden one calls is removed, and
      the hidden one does not run as before. */
  lemma HiddenCallLost(p: Module, R: set<string>, f: Func, e: string)
    requires IsReach(p, R) && e in Edges(f.code) && Find(p.funcs, e).Some? && !Unnamed(p, e)
    requires forall n :: e !in EdgesOf(p.funcs, n)
    ensures e !in R && !Preserved(p, R, f)
  {
    RootMeans(p, e);
    assert Roots(p) <= R - {e};
    forall n | n in R - {e}
      ensures EdgesOf(p.funcs, n) <= R - {e}
    {
      assert EdgesOf(p.funcs, n) <= R;
    }
    assert Closed(p.funcs, R - {e});
    PreservedExactly(p, R, f);
  }

  /** A machine that goes straight to the first call of e. */
  function Seeker(e: string): Machine {
    (o: Op, d: int) => if e in Edge(o) then Enter(e, d) else Next(d)
  }

  /** A function runs as before exactly when every function its code names is kept or never
      existed. (A package may have several init functions; only the last one is searched.) */
  lemma PreservedExactly(p: Module, R: set<string>, f: Func)
    requires IsReach(p, R)
    ensures Preserved(p, R, f) <==> Safe(p, R, f.code)
  {
    if Safe(p, R, f.code) {
      forall act: Machine, d, n: nat | Honest(p, act)
        ensures Run(Keep(p.funcs, R), act, Start(f, d), n) == Run(p.funcs, act, Start(f, d), n)
      {
        RunSame(p, R, act, Start(f, d), n);
      }
    } else {
      var e :| e in Edges(f.code) && !Known(p, R, e);
      CallNoticed(p, R, f, e);
    }
  }

  /** A machine that seeks a call of a function that is gone notices. */
  lemma CallNoticed(p: Module, R: set<string>, f: Func, e: string)
    requires e in Edges(f.code) && !Known(p, R, e)
    ensures !Preserved(p, R, f)
  {
    hide Run, Step, Edges, Honest;
    var k := FirstCall(f.code, e);
    SeekerArrives(p.funcs, f.code, e, k, 0);
    SeekerArrives(Keep(p.funcs, R), f.code, e, k, 0);
    FindKeep(p.funcs, R, e);
    SeekerHonest(p, e);
    assert Run(Keep(p.funcs, R), Seeker(e), Start(f, 0), k + 1) != Run(p.funcs, Seeker(e), Start(f, 0), k + 1);
  }

  lemma SeekerHonest(p: Module, e: string)
    ensures Honest(p, Seeker(e))
  {
    forall o: Op, d: int | Seeker(e)(o, d).Enter?
      ensures MayEnter(o, Seeker(e)(o, d).name)
    {
      EdgeMeans(o, e);
    }
  }

  lemma {:induction false} FirstCall(code: seq<Op>, e: string) returns (k: nat)
    requires e in Edges(code)
    ensures k < |code| && e in Edge(code[k]) && forall i :: 0 <= i < k ==> e !in Edge(code[i])
  {
    var n := |code| - 1;
    if e in Edges(code[..n]) {
      k := FirstCall(code[..n], e);
    } else {
      k := n;
      forall i | 0 <= i < k
        ensures e !in Edge(code[i])
      {
        assert code[..n][i] == code[i];
        EdgeIn(code[..n], i);
      }
    }
  }

  lemma {:induction false} SeekerArrives(fs: seq<Func>, code: seq<Op>, e: string, k: nat, pc: nat)
    requires pc <= k < |code| && e in Edge(code[k]) && forall i :: 0 <= i < k ==> e !in Edge(code[i])
    ensures Run(fs, Seeker(e), Live([Frame(code, pc)], 0), k - pc + 1) ==
      match Find(fs, e)
      case None => Missing(e)
      case Some(g) => Live([Frame(code, k + 1), Frame(g.code, 0)], 0)
    decreases k - pc
  {
    var c := Live([Frame(code, pc)], 0);
    assert c.frames[..0] == [];
    if pc < k {
      assert Step(fs, Seeker(e), c) == Live([] + [Frame(code, pc + 1)], 0);
      assert [] + [Frame(code, pc + 1)] == [Frame(code, pc + 1)];
      SeekerArrives(fs, code, e, k, pc + 1);
    } else {
      var r := Step(fs, Seeker(e), c);
      assert Run(fs, Seeker(e), c, 1) == Run(fs, Seeker(e), r, 0) == r;
    }
  }

  /** Two init functions of one package: the first calls a function that elimination removes. */
  lemma SecondInitHidesFirst(init: string, callee: string)
    requires (EndsWith(init, ".init") || EndsWith(init, ".init$globals")) && MayEnter(Call(callee), callee)
    requires !Unnamed(Module([], map[]), callee)
    ensures var first := Func(init, [Call(callee)]);
      var p := Module([first, Func(init, []), Func(callee, [])], map[]);
      IsReach(p, {init}) && first in Keep(p.funcs, {init}) && !Preserved(p, {init}, first)
  {
    RootMeans(Module([], map[]), init);
    RootMeans(Module([], map[]), callee);
    EdgeMeans(Call(callee), callee);
    var first, second, g := Func(init, [Call(callee)]), Func(init, []), Func(callee, []);
    var fs := [first, second, g];
    var p := Module(fs, map[]);
    assert fs[..2] == [first, second] && fs[..2][..1] == [first];
    assert callee != init;
    assert Find(fs, init) == Find(fs[..2], init) == Some(second);
    assert Find(fs, callee) == Some(g);
    RootsOf(p, first, second, g);
    assert Edges(first.code) == {callee} by {
      assert first.code[..0] == [];
    }
    assert !Known(p, {init}, callee);
    assert first in p.funcs;
    PreservedExactly(p, {init}, first);
  }

  lemma RootsOf(p: Module, first: Func, second: Func, g: Func)
    requires p == Module([first, second, g], map[]) && IsInit(first.name) && second.name == first.name
    requires !IsRoot(p, g.name)
    ensures Roots(p) == {first.name}
  {
    assert first in p.funcs;
    assert forall f :: f in p.funcs ==> f == first || f == second || f == g;
  }
}
