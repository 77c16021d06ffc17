/** The program that a file stands for: its functions, its globals with their sizes, and the words that
    the globals own when the program starts. */
module Programs {
  import opened Words
  import opened Ast
  import opened Source
  import opened GlobalArrays
  import R = Statements
  import Tok = Tokens
  import I = Ir
  import Sc = Scopes

  // ----- functions and globals -----

  /** The number of functions among the definitions. */
  function Functions(items: seq<R.Item>): nat {
    if items == [] then 0
    else Functions(items[..|items| - 1]) + if items[|items| - 1].FunctionItem? then 1 else 0
  }

  /** Definition i is the last one of global g, and gives it the size. */
  predicate LastDefines(items: seq<R.Item>, i: int, g: string, size: nat) {
    && 0 <= i < |items| && items[i] == R.GlobalItem(g, size)
    && forall j :: i < j < |items| && items[j].GlobalItem? ==> items[j].name != g
  }

  /** Exactly the files whose function bodies are compound statements stand for a program. */
  lemma {:induction false} CompoundOnly(items: seq<R.Item>)
    ensures R.ProgramOf(items).Some?
            <==> forall i :: 0 <= i < |items| && items[i].FunctionItem? ==> items[i].body.Block?
    decreases |items|
  {
    if items != [] {
      var n := |items| - 1;
      CompoundOnly(items[..n]);
      assert forall i :: 0 <= i < n ==> items[..n][i] == items[i];
    }
  }

  /** The functions of the program are those of the file, in order, with their names, parameters and
      bodies. */
  lemma {:induction false} FunctionsInOrder(items: seq<R.Item>, p: Program)
    requires R.ProgramOf(items) == Some(p)
    ensures |p.fns| == Functions(items)
    ensures forall i :: 0 <= i < |items| && items[i].FunctionItem? ==>
              && items[i].body.Block? && Functions(items[..i]) < |p.fns|
              && p.fns[Functions(items[..i])] == Function(items[i].name, items[i].params, items[i].body.body)
    decreases |items|
  {
    if items != [] {
      var n := |items| - 1;
      var q := R.ProgramOf(items[..n]).value;
      FunctionsInOrder(items[..n], q);
      forall i | 0 <= i < n && items[i].FunctionItem?
        ensures items[i].body.Block? && Functions(items[..i]) < |q.fns|
        ensures q.fns[Functions(items[..i])] == Function(items[i].name, items[i].params, items[i].body.body)
      {
        assert items[..n][i] == items[i] && items[..n][..i] == items[..i];
      }
    }
  }

  /** One more definition. */
  lemma LastDefinesMore(items: seq<R.Item>, x: R.Item, i: int, g: string, size: nat)
    ensures LastDefines(items + [x], i, g, size)
            <==> if x.GlobalItem? && x.name == g then i == |items| && x.size == size else LastDefines(items, i, g, size)
  {
    var all := items + [x];
    assert all[|items|] == x;
    assert forall j :: 0 <= j < |items| ==> all[j] == items[j];
  }

  /** The globals of the program are those that the file defines, each with the size in its last
      definition. */
  lemma {:induction false} GlobalsWithSizes(items: seq<R.Item>, p: Program, g: string, size: nat)
    requires R.ProgramOf(items) == Some(p)
    ensures (exists i :: 0 <= i < |items| && items[i].GlobalItem? && items[i].name == g) <==> g in p.globals
    ensures (exists i :: LastDefines(items, i, g, size)) <==> g in p.globals && p.globals[g] == size
    decreases |items|
  {
    if items != [] {
      hide LastDefines;
      var n := |items| - 1;
      var before, x := items[..n], items[n];
      var q := R.ProgramOf(before).value;
      assert items == before + [x];
      GlobalsWithSizes(before, q, g, size);
      forall i: int
        ensures LastDefines(items, i, g, size)
                <==> if x.GlobalItem? && x.name == g then i == n && x.size == size else LastDefines(before, i, g, size)
      {
        LastDefinesMore(before, x, i, g, size);
      }
      if x.GlobalItem? && x.name == g {
        assert x.size == size ==> LastDefines(items, n, g, size);
      } else {
        assert forall i :: 0 <= i < n ==> before[i] == items[i];
      }
    }
  }

  // ----- their words -----

  /** The address of word i of a global. */
  function ElementAt(w: I.World, g: string, i: nat): Word {
    (w.lay.global(g) + 8 * i) % 0x1_0000_0000_0000_0000
  }

  /** A program starts with exactly the words of its globals, all zero: as many as declared, or one
      where the declaration says nothing or zero. */
  lemma GlobalsStartZero(p: Program, w: I.World)
    ensures forall g: string, i: nat :: g in p.globals && (i < p.globals[g] || i == 0) ==>
              ElementAt(w, g, i) in GlobalMemory(p, w) && GlobalMemory(p, w)[ElementAt(w, g, i)] == I.Is(0)
    ensures forall a :: a in GlobalMemory(p, w) ==>
              exists g: string, i: nat :: g in p.globals && (i < p.globals[g] || i == 0) && a == ElementAt(w, g, i)
  {
    forall g: string, i: nat | g in p.globals && (i < p.globals[g] || i == 0)
      ensures ElementAt(w, g, i) in GlobalMemory(p, w)
    {
      assert GlobalWord(w, g, i) == ElementAt(w, g, i);
      assert 0 <= i < GlobalSize(p.globals[g]);
      assert GlobalWord(w, g, i) in GlobalWords(p, w);
    }
    forall a | a in GlobalMemory(p, w)
      ensures exists g: string, i: nat :: g in p.globals && (i < p.globals[g] || i == 0) && a == ElementAt(w, g, i)
    {
      var g, i :| g in p.globals && 0 <= i < GlobalSize(p.globals[g]) && a == GlobalWord(w, g, i);
      assert a == ElementAt(w, g, i);
    }
  }
}
