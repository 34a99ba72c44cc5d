/** The linear stream determines the structured code: reading it back by matching every
    opening mark with its end gives the tree it was written from. */
module LinearForm {
  import opened Wasm

  predicate Stops(ts: seq<Tok>) {
    ts == [] || ts[0].TEnd? || ts[0].TElse?
  }

  /** The structured code at the front of a stream, and what follows it. */
  function Parse(ts: seq<Tok>): (r: (seq<W>, seq<Tok>))
    ensures |r.1| <= |ts|
    decreases |ts|
  {
    if Stops(ts) then ([], ts)
    else match ts[0]
      case TOp(o) => Cons(Op(o), Parse(ts[1..]))
      case TBlock =>
        var b := Parse(ts[1..]);
        if b.1 == [] || !b.1[0].TEnd? then ([], []) else Cons(Block(b.0), Parse(b.1[1..]))
      case TLoop =>
        var b := Parse(ts[1..]);
        if b.1 == [] || !b.1[0].TEnd? then ([], []) else Cons(LoopW(b.0), Parse(b.1[1..]))
      case TIf =>
        var t := Parse(ts[1..]);
        if t.1 == [] || !t.1[0].TElse? then ([], [])
        else
          var e := Parse(t.1[1..]);
          if e.1 == [] || !e.1[0].TEnd? then ([], []) else Cons(If(t.0, e.0), Parse(e.1[1..]))
  }

  function Cons(w: W, r: (seq<W>, seq<Tok>)): (seq<W>, seq<Tok>) {
    ([w] + r.0, r.1)
  }

  lemma ToksHead(ws: seq<W>, rest: seq<Tok>)
    requires ws != []
    ensures ToksAll(ws) + rest == Toks(ws[0]) + (ToksAll(ws[1..]) + rest)
  {
    hide Toks;
  }

  /** Reading back what was written gives the same code and leaves what follows. */
  lemma {:induction false} ParseBack(ws: seq<W>, rest: seq<Tok>)
    requires Stops(rest)
    ensures Parse(ToksAll(ws) + rest) == (ws, rest)
    decreases ws
  {
    if ws == [] {
      assert ToksAll(ws) + rest == rest;
    } else {
      hide Toks, ToksAll;
      var tail := ToksAll(ws[1..]) + rest;
      ToksHead(ws, rest);
      ParseBack(ws[1..], rest);
      assert ws == [ws[0]] + ws[1..];
      match ws[0]
      case Op(o) => OpBack(o, tail);
      case Block(b) =>
        ParseBack(b, [TEnd] + tail);
        BlockBack(b, tail, TBlock);
      case LoopW(b) =>
        ParseBack(b, [TEnd] + tail);
        BlockBack(b, tail, TLoop);
      case If(t, e) =>
        ParseBack(e, [TEnd] + tail);
        ParseBack(t, [TElse] + (ToksAll(e) + ([TEnd] + tail)));
        IfBack(t, e, tail);
    }
  }

  lemma OpBack(o: WOp, tail: seq<Tok>)
    ensures Parse(Toks(Op(o)) + tail) == Cons(Op(o), Parse(tail))
  {
    assert ([TOp(o)] + tail)[1..] == tail;
  }

  lemma BlockBack(b: seq<W>, tail: seq<Tok>, mark: Tok)
    requires mark == TBlock || mark == TLoop
    requires Parse(ToksAll(b) + ([TEnd] + tail)) == (b, [TEnd] + tail)
    ensures var w := if mark == TBlock then Block(b) else LoopW(b);
      Parse(Toks(w) + tail) == Cons(w, Parse(tail))
  {
    hide ToksAll;
    var w := if mark == TBlock then Block(b) else LoopW(b);
    assert Toks(w) + tail == [mark] + (ToksAll(b) + ([TEnd] + tail));
    assert (Toks(w) + tail)[1..] == ToksAll(b) + ([TEnd] + tail);
    assert ([TEnd] + tail)[1..] == tail;
  }

  lemma IfBack(t: seq<W>, e: seq<W>, tail: seq<Tok>)
    requires Parse(ToksAll(e) + ([TEnd] + tail)) == (e, [TEnd] + tail)
    requires Parse(ToksAll(t) + ([TElse] + (ToksAll(e) + ([TEnd] + tail)))) == (t, [TElse] + (ToksAll(e) + ([TEnd] + tail)))
    ensures Parse(Toks(If(t, e)) + tail) == Cons(If(t, e), Parse(tail))
  {
    hide ToksAll, Parse;
    var r := ToksAll(e) + ([TEnd] + tail);
    IfStream(t, e, tail);
    IfParse(Toks(If(t, e)) + tail, t, e, r, tail);
  }

  lemma IfStream(t: seq<W>, e: seq<W>, tail: seq<Tok>)
    ensures var s := Toks(If(t, e)) + tail;
      s != [] && s[0] == TIf && s[1..] == ToksAll(t) + ([TElse] + (ToksAll(e) + ([TEnd] + tail)))
  {
    hide ToksAll;
    var r := ToksAll(e) + ([TEnd] + tail);
    assert Toks(If(t, e)) + tail == [TIf] + (ToksAll(t) + ([TElse] + r));
  }

  lemma IfParse(s: seq<Tok>, t: seq<W>, e: seq<W>, r: seq<Tok>, tail: seq<Tok>)
    requires s != [] && s[0] == TIf && Parse(s[1..]) == (t, [TElse] + r) && Parse(r) == (e, [TEnd] + tail)
    ensures Parse(s) == Cons(If(t, e), Parse(tail))
  {
    assert ([TElse] + r)[1..] == r && ([TEnd] + tail)[1..] == tail;
  }

}
