/** The forward targets of a level, sorted, are its open blocks. */
module SortShape {
  import opened Ir
  import opened Shape
  import opened Structured
  import opened Stackify
  import opened Searches
  import opened ScanShape

  /** Furthest position first. */
  ghost predicate Strict(xs: seq<FwdTarget>) {
    forall i, j :: 0 <= i < j < |xs| ==> xs[i].pos > xs[j].pos
  }

  ghost predicate DistinctPos(xs: seq<FwdTarget>) {
    forall i, j :: 0 <= i < j < |xs| ==> xs[i].pos != xs[j].pos
  }

  ghost predicate SameElements(a: seq<FwdTarget>, b: seq<FwdTarget>) {
    forall x :: x in a <==> x in b
  }

  lemma {:induction false} InsertSorts(s: seq<FwdTarget>, x: FwdTarget)
    requires Strict(s) && forall y :: y in s ==> y.pos != x.pos
    ensures Strict(Insert(s, x)) && SameElements(Insert(s, x), s + [x])
  {
    var n := |s|;
    if n > 0 && s[n - 1].pos < x.pos {
      var t := s[..n - 1];
      InsertSorts(t, x);
      var r := Insert(t, x);
      forall y | y in r
        ensures y.pos > s[n - 1].pos
      {
        assert y in t + [x];
      }
      assert forall y :: y in Insert(s, x) <==> y in r || y == s[n - 1];
      assert s == t + [s[n - 1]];
    } else {
      assert n > 0 ==> s[n - 1] in s;
    }
  }

  lemma {:induction false} SortSorts(xs: seq<FwdTarget>)
    requires DistinctPos(xs)
    ensures Strict(SortFurthest(xs)) && SameElements(SortFurthest(xs), xs)
  {
    if xs != [] {
      var n := |xs| - 1;
      SortSorts(xs[..n]);
      var s := SortFurthest(xs[..n]);
      forall y | y in s
        ensures y.pos != xs[n].pos
      {
        assert y in xs[..n];
      }
      InsertSorts(s, xs[n]);
      assert xs == xs[..n] + [xs[n]];
    }
  }

  /** A set of targets has one strict order only. */
  lemma {:induction false} OneOrder(a: seq<FwdTarget>, b: seq<FwdTarget>)
    requires Strict(a) && Strict(b) && SameElements(a, b)
    ensures a == b
    decreases |a|
  {
    if a == [] {
      assert forall i :: 0 <= i < |b| ==> b[i] in b;
    } else {
      var x := a[|a| - 1];
      assert x in b;
      var y := b[|b| - 1];
      assert y in a;
      assert x == y;
      var a', b' := a[..|a| - 1], b[..|b| - 1];
      assert a == a' + [x] && b == b' + [x];
      forall z
        ensures z in a' <==> z in b'
      {
        if z in a' {
          assert z in b;
        }
        if z in b' {
          assert z in a;
        }
      }
      OneOrder(a', b');
    }
  }

  /** The open blocks of a level with the positions of their labels. */
  function OpenAt(items: seq<Item>, T: set<int>, at: nat): (r: seq<FwdTarget>)
    ensures |r| == |Open(items, T)|
    ensures forall i :: 0 <= i < |r| ==> r[i].lab == Open(items, T)[i] && r[i].pos >= at
  {
    if items == [] then []
    else
      OpenAt(items[1..], T, at + |FlatItem(items[0])|)
      + (if Closes(items[0], T) then [FwdTarget(items[0].l, at)] else [])
  }

  /** x is a label of the level with its position. */
  ghost predicate Stands(x: FwdTarget, items: seq<Item>, at: nat) {
    x.lab in TopLabs(items) && x.pos == at + PosOf(items, x.lab)
  }

  lemma HeadLabelFresh(items: seq<Item>)
    requires items != [] && DistinctLabels(Flatten(items))
    ensures items[0].Lab? ==> items[0].l !in TopLabs(items[1..])
  {
    DistinctParts(FlatItem(items[0]), Flatten(items[1..]));
    TopInCode(items[1..]);
    if items[0].Lab? {
      HasCodeLabel(FlatItem(items[0]), 0);
    }
  }

  lemma StandsLater(x: FwdTarget, items: seq<Item>, at: nat)
    requires items != [] && DistinctLabels(Flatten(items))
    requires Stands(x, items[1..], at + |FlatItem(items[0])|)
    ensures Stands(x, items, at) && items[0] != Lab(x.lab)
  {
    HeadLabelFresh(items);
  }

  lemma {:induction false} OpenAtStrict(items: seq<Item>, T: set<int>, at: nat)
    ensures Strict(OpenAt(items, T, at))
  {
    if items != [] {
      assert |FlatItem(items[0])| >= 1;
      OpenAtStrict(items[1..], T, at + |FlatItem(items[0])|);
    }
  }

  lemma StandsCases(x: FwdTarget, items: seq<Item>, at: nat)
    requires items != [] && DistinctLabels(Flatten(items))
    ensures Stands(x, items, at) <==>
      (items[0] == Lab(x.lab) && x.pos == at) || Stands(x, items[1..], at + |FlatItem(items[0])|)
  {
    hide CodeLabels, FlatItem, Flatten, DistinctLabels;
    HeadLabelFresh(items);
  }

  lemma {:induction false} OpenAtStands(items: seq<Item>, T: set<int>, at: nat, x: FwdTarget)
    requires DistinctLabels(Flatten(items))
    ensures x in OpenAt(items, T, at) <==> Stands(x, items, at) && x.lab in T
  {
    hide CodeLabels, FlatItem, DistinctLabels, Open;
    if items != [] {
      hide Stands, TopLabs;
      StandsCases(x, items, at);
      DistinctParts(FlatItem(items[0]), Flatten(items[1..]));
      OpenAtStands(items[1..], T, at + |FlatItem(items[0])|, x);
    }
  }

  lemma {:induction false} JumpsForward(items: seq<Item>, loop: LoopOf)
    requires LevelOK(items, loop)
    ensures forall l :: l in TopJumps(items) ==>
              l in TopLabs(items) || (loop.Some? && (l == loop.value.0 || l == loop.value.1))
    decreases items
  {
    if items != [] {
      JumpsForward(items[1..], loop);
    }
  }

  ghost predicate OncePerLabel(xs: seq<FwdTarget>) {
    forall i, j :: 0 <= i < j < |xs| ==> xs[i].lab != xs[j].lab
  }

  /** The pre-scan collects each label that some jump of the level targets, once. */
  lemma {:induction false} CollectFacts(items: seq<Item>, loop: LoopOf, K: Kinds, at: nat, fwd: seq<FwdTarget>)
    requires LevelOK(items, loop) && DistinctLabels(Flatten(items)) && LoopKnown(items, loop, K)
    requires OncePerLabel(fwd)
    ensures var r := Collect(items, at, fwd);
      && OncePerLabel(r)
      && (forall x :: x in fwd ==> x in r)
      && (forall x :: x in r ==> x in fwd || (Stands(x, items, at) && x.lab in Targets(items)))
      && (forall l :: l in Targets(items) ==> HasLabel(r, l))
    decreases items
  {
    if items != [] {
      var it, rest, at' := items[0], items[1..], at + |FlatItem(items[0])|;
      DistinctParts(FlatItem(it), Flatten(rest));
      LoopKnownRest(items, loop, K);
      var fwd' := NewFwd(it, rest, at, fwd);
      CollectStep(it, rest, at, fwd);
      CollectFacts(rest, loop, K, at', fwd');
      var r := Collect(items, at, fwd);
      forall x | x in r && x !in fwd
        ensures Stands(x, items, at) && x.lab in Targets(items)
      {
        StandsLater(x, items, at);
      }
      forall l | l in Targets(items)
        ensures HasLabel(r, l)
      {
        if l !in Targets(rest) {
          LateTarget(items, loop, K, l);
          KeepsLabel(fwd', r, l);
        }
      }
    }
  }

  lemma CollectStep(it: Item, rest: seq<Item>, at: nat, fwd: seq<FwdTarget>)
    requires OncePerLabel(fwd)
    ensures var r := NewFwd(it, rest, at, fwd);
      && OncePerLabel(r)
      && (forall x :: x in fwd ==> x in r)
      && (forall x :: x in r && x !in fwd ==>
            IsGoto(it) && x.lab == it.l && Stands(x, rest, at + |FlatItem(it)|))
      && (IsGoto(it) && it.l in TopLabs(rest) ==> HasLabel(r, it.l))
  {
    var r := NewFwd(it, rest, at, fwd);
    if r != fwd {
      assert r[|r| - 1].lab == it.l;
    }
  }

  lemma KeepsLabel(a: seq<FwdTarget>, b: seq<FwdTarget>, l: int)
    requires HasLabel(a, l) && forall x :: x in a ==> x in b
    ensures HasLabel(b, l)
  {
    var i :| 0 <= i < |a| && a[i].lab == l;
    assert a[i] in b;
  }

  /** A target of the level that is none of the rest is the label its first item jumps to. */
  lemma LateTarget(items: seq<Item>, loop: LoopOf, K: Kinds, l: int)
    requires items != [] && LevelOK(items, loop) && DistinctLabels(Flatten(items)) && LoopKnown(items, loop, K)
    requires l in Targets(items) && l !in Targets(items[1..])
    ensures IsGoto(items[0]) && items[0].l == l && l in TopLabs(items[1..])
  {
    var it, rest := items[0], items[1..];
    TopInCode(items);
    TopInCode(rest);
    DistinctParts(FlatItem(it), Flatten(rest));
    JumpsForward(rest, loop);
    HeadLabelFresh(items);
  }

  /** Sorted, the collected targets are the blocks open at the start of the level. */
  lemma SortedIsOpen(items: seq<Item>, loop: LoopOf, K: Kinds, at: nat)
    requires LevelOK(items, loop) && DistinctLabels(Flatten(items)) && LoopKnown(items, loop, K)
    ensures SortFurthest(Collect(items, at, [])) == OpenAt(items, Targets(items), at)
  {
    var xs, T := Collect(items, at, []), Targets(items);
    CollectFacts(items, loop, K, at, []);
    PositionsDiffer(items, at, xs);
    SortSorts(xs);
    OpenAtStrict(items, T, at);
    hide Collect, Targets, TopLabs, LevelOK, DistinctLabels, SortFurthest, OpenAt, Strict;
    forall x
      ensures x in SortFurthest(xs) <==> x in OpenAt(items, T, at)
    {
      OpenAtStands(items, T, at, x);
      if Stands(x, items, at) && x.lab in T {
        Collected(items, at, xs, x);
      }
    }
    OneOrder(SortFurthest(xs), OpenAt(items, T, at));
  }

  lemma Collected(items: seq<Item>, at: nat, xs: seq<FwdTarget>, x: FwdTarget)
    requires Stands(x, items, at) && HasLabel(xs, x.lab) && forall y :: y in xs ==> Stands(y, items, at)
    ensures x in xs
  {
    var i :| 0 <= i < |xs| && xs[i].lab == x.lab;
    assert xs[i] in xs;
  }

  lemma PositionsDiffer(items: seq<Item>, at: nat, xs: seq<FwdTarget>)
    requires OncePerLabel(xs) && forall x :: x in xs ==> Stands(x, items, at)
    ensures DistinctPos(xs)
  {
    forall i, j | 0 <= i < j < |xs|
      ensures xs[i].pos != xs[j].pos
    {
      assert xs[i] in xs && xs[j] in xs;
      assert Flatten(items)[xs[i].pos - at] == Label(xs[i].lab);
      assert Flatten(items)[xs[j].pos - at] == Label(xs[j].lab);
    }
  }
}
