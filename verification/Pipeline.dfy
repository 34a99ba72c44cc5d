/** The passes put together: from a function of the fragment to WebAssembly and to x86-64. */
module Pipeline {
  import opened Ir
  import opened Shape
  import opened Ast
  import opened LowerFuncs
  import opened Wasm
  import Lower
  import CodeGen
  import Compiler
  import Eager
  import LinearForm
  import Native
  import NativeFuncs
  import Pending
  import StackifyCorrect
  import SwitchFuncs
  import Switches
  import WasmGen

  /** The WebAssembly body of one function; what it computes is CompiledPreserves. */
  method CompileToWasm(f: Func) returns (info: FuncInfo, body: seq<Tok>)
    requires Accepted(f)
    ensures info == InfoOf(f, 0)
    ensures LinearForm.Parse(body) == (StackifyCorrect.FuncCode(info, ItemsOf(f, 0)), [])
  {
    var c := new Compiler.Compiler();
    c.CompileFunc(f);
    info := FuncInfo(|f.params|, c.nlocals, f.results);
    LoweringIsGood(f, 0);
    StackifyCorrect.CompiledFunction(info, ItemsOf(f, 0));
    var g := new WasmGen.WasmGen(info);
    g.CompileFunc(c.code);
    body := g.buf;
  }

  /** The WebAssembly body of a function with a switch; what it computes is SwitchCompiled. */
  method CompileSwitchToWasm(f: Switches.SwitchFunc) returns (info: FuncInfo, body: seq<Tok>)
    requires SwitchFuncs.Accepted(f)
    ensures info == SwitchFuncs.InfoOf(f, 0)
    ensures LinearForm.Parse(body) == (StackifyCorrect.FuncCode(info, Switches.ItemsOf(f, 0)), [])
  {
    hide Switches.ItemsOf, Switches.SlotsOf, SwitchFuncs.Accepted;
    var c := new Compiler.Compiler();
    c.CompileSwitchFunc(f);
    info := FuncInfo(|f.params|, c.nlocals, f.results);
    SwitchFuncs.LoweringIsTagged(f, 0);
    StackifyCorrect.CompiledFunction(info, Switches.ItemsOf(f, 0));
    var g := new WasmGen.WasmGen(info);
    g.CompileFunc(c.code);
    body := g.buf;
  }

  /** The x86-64 code of one function, prologue included: NativePreserves says what a call of
      it computes. */
  method CompileToNative(f: Func) returns (code: seq<Native.Asm>)
    ensures code == Pending.Gen(NativeFuncs.NativeOps(f, 0)).0
  {
    var c := new Compiler.Compiler();
    c.CompileFunc(f);
    var g := new CodeGen.CodeGen(Pending.X64);
    g.CompileFunc(|f.params|, Eager.Lift(c.code));
    code := g.code;
    assert [] + Pending.Gen(NativeFuncs.NativeOps(f, 0)).0 == Pending.Gen(NativeFuncs.NativeOps(f, 0)).0;
  }
}
