/** The frame of a lowered function: the back end's count of temps is the lowering's own, every
    temp has a word of the frame, and every cell has one to itself. */
module FrameLayout {
  import opened Words
  import opened Ast
  import opened Ir
  import opened Lowering
  import opened CodeShape
  import opened Codegen
  import opened CodegenOps
  import opened Numbering
  import FS = FunctionSimulation
  import F = Frames

  /** The temps that code sets and reads lie in 1..d. */
  ghost predicate Ranged(code: seq<Instr>, d: nat) {
    && (forall x :: x in code && Sets(x) ==> 1 <= Dest(x) <= d)
    && ReadsUpto(code, d)
  }

  ghost predicate Tops(code: seq<Instr>, d: nat) {
    exists i :: 0 <= i < |code| && Dest(code[i]) == d
  }

  lemma RangedSum(a: seq<Instr>, b: seq<Instr>, d: nat, e: nat)
    requires Ranged(a, d) && Ranged(b, e) && d <= e
    ensures Ranged(a + b, e)
  {
    hide Sets, Dest, Uses;
    forall x | x in a + b
      ensures x in a || x in b
    {
    }
  }

  lemma TopsSum(a: seq<Instr>, b: seq<Instr>, d: nat)
    requires Tops(a, d) || Tops(b, d)
    ensures Tops(a + b, d)
  {
    hide Dest;
    if Tops(a, d) {
      var i :| 0 <= i < |a| && Dest(a[i]) == d;
      assert (a + b)[i] == a[i];
    } else {
      var i :| 0 <= i < |b| && Dest(b[i]) == d;
      assert (a + b)[|a| + i] == b[i];
    }
  }

  lemma {:induction false} DestsHold(code: seq<Instr>, x: Instr)
    requires x in code && Sets(x)
    ensures Dest(x) in Dests(code)
    decreases |code|
  {
    hide Sets, Dest;
    if code[0] != x {
      assert x in code[1..];
      DestsHold(code[1..], x);
    }
  }

  lemma {:induction false} DestsFrom(code: seq<Instr>, v: nat)
    requires v in Dests(code)
    ensures Tops(code, v)
    decreases |code|
  {
    hide Sets, Dest;
    if !(Sets(code[0]) && Dest(code[0]) == v) {
      DestsFrom(code[1..], v);
      var i :| 0 <= i < |code[1..]| && Dest(code[1..][i]) == v;
      assert code[i + 1] == code[1..][i];
    }
  }

  lemma TidyRanged(code: seq<Instr>, c: nat, d: nat)
    requires Tidy(code, c, d)
    ensures Ranged(code, d)
    ensures c < d ==> Tops(code, d)
  {
    hide Sets, Dest, Uses, Dests, Tops;
    forall x | x in code && Sets(x)
      ensures 1 <= Dest(x) <= d
    {
      DestsHold(code, x);
    }
    if c < d {
      assert Upto(c, d)[d - c - 1] == d;
      DestsFrom(code, d);
    }
  }

  lemma {:induction false} PrologueRanged(n: nat, i: nat)
    requires i <= n
    ensures Ranged(Prologue(n, i), n + i)
    ensures i > 0 ==> Tops(Prologue(n, i), n + i)
    decreases i
  {
    if i > 0 {
      PrologueRanged(n, i - 1);
      StepRanged(n, i);
      var three := [Alloc(n + i), Instr.Store(n + i, i), Instr.Address(i, n + i)];
      RangedSum(Prologue(n, i - 1), three, n + i - 1, n + i);
      TopsSum(Prologue(n, i - 1), three, n + i);
    }
  }

  lemma StepRanged(n: nat, i: nat)
    requires 1 <= i <= n
    ensures Ranged([Alloc(n + i), Instr.Store(n + i, i), Instr.Address(i, n + i)], n + i)
    ensures Tops([Alloc(n + i), Instr.Store(n + i, i), Instr.Address(i, n + i)], n + i)
  {
    assert Dest([Alloc(n + i), Instr.Store(n + i, i), Instr.Address(i, n + i)][0]) == n + i;
  }

  /** The lowering's temp counter at the end of a function. */
  function FinalTemp(f: Function, globals: set<string>): nat
    requires LowerFunction(f, globals).Some?
  {
    var b := LowerBlock(f.body, FirstContext(f, globals));
    var code := [Label(1)] + Prologue(|f.params|, |f.params|) + b.code;
    b.cx.temps + (if Epilogue(code, b.cx.temps) == [] then 0 else 1)
  }

  lemma EpilogueTidy(code: seq<Instr>, c: nat)
    ensures Tidy(Epilogue(code, c), c, c + (if Epilogue(code, c) == [] then 0 else 1))
  {
    hide Tidy;
    if Epilogue(code, c) == [] {
      TidyNone(c);
    } else {
      TidyOne(Const(c + 1, 0), c);
      TidyZero(Instr.Return(c + 1), c + 1);
      TidySum([Const(c + 1, 0)], [Instr.Return(c + 1)], c, c + 1, c + 1);
      assert [Const(c + 1, 0)] + [Instr.Return(c + 1)] == Epilogue(code, c);
    }
  }

  lemma FirstUnder(f: Function, globals: set<string>)
    ensures Under(FirstContext(f, globals).scope, 2 * |f.params|)
  {
    forall x: string
      ensures x in ParamTemps(f.params) ==> ParamTemps(f.params)[x] <= |f.params|
    {
      ParamTempsBound(f.params, x);
    }
  }

  lemma {:induction false} ParamTempsBound(params: seq<string>, x: string)
    ensures x in ParamTemps(params) ==> ParamTemps(params)[x] <= |params|
    decreases |params|
  {
    if params != [] {
      ParamTempsBound(params[..|params| - 1], x);
    }
  }

  lemma MaxIs(n: nat, code: seq<Instr>, d: nat)
    requires n <= d && Ranged(code, d) && (d == n || Tops(code, d))
    ensures MaxTemp(n, code) == d
  {
    hide Uses;
    forall i | 0 <= i < |code|
      ensures Dest(code[i]) <= d
    {
      if !Sets(code[i]) {
        assert Dest(code[i]) == 0;
      }
    }
  }

  /** The temps of a lowered function: what the back end takes for the highest temp is the final
      value of the lowering's counter, and every temp set or read lies below it. */
  lemma FunctionTemps(f: Function, globals: set<string>)
    requires LowerFunction(f, globals).Some?
    ensures
      var fn := LowerFunction(f, globals).value;
      && TopTemp(fn) == FinalTemp(f, globals)
      && Ranged(fn.code, TopTemp(fn))
      && F.TempsNumbered(fn)
  {
    hide Tidy, Ranged, Tops, LowerBlock, Prologue, Epilogue, Under, TidyStmt, LowerFunction, MaxTemp, FinalTemp;
    var n := |f.params|;
    var cx := FirstContext(f, globals);
    FS.FunctionDef(f, globals);
    FirstUnder(f, globals);
    BlockTidy(f.body, cx);
    BodyTidy(f, globals);
    var b := FS.Body(f, globals);
    var open := FS.Opening(n);
    var d := FinalTemp(f, globals);
    var e := Epilogue(open + b.code, b.cx.temps);
    EpilogueTidy(open + b.code, b.cx.temps);
    FinalDef(f, globals);
    TidyRanged(b.code, 2 * n, b.cx.temps);
    TidyRanged(e, b.cx.temps, d);
    OpeningRanged(n);
    RangedSum(open, b.code, 2 * n, b.cx.temps);
    RangedSum(open + b.code, e, b.cx.temps, d);
    var fn := LowerFunction(f, globals).value;
    if b.cx.temps < d {
      TopsSum(open + b.code, e, d);
    } else if 2 * n < d {
      TopsSum(open, b.code, d);
      TopsSum(open + b.code, e, d);
    } else if n > 0 {
      TopsSum(open, b.code, d);
      TopsSum(open + b.code, e, d);
    }
    MaxIs(n, fn.code, d);
    RangedNumbered(fn, d);
  }

  lemma BodyTidy(f: Function, globals: set<string>)
    requires LowerFunction(f, globals).Some?
    requires TidyStmt(LowerBlock(f.body, FirstContext(f, globals)), FirstContext(f, globals))
    ensures var b := FS.Body(f, globals);
            b.Lowered? && 2 * |f.params| <= b.cx.temps && Tidy(b.code, 2 * |f.params|, b.cx.temps)
  {
    hide LowerBlock;
  }

  lemma FinalDef(f: Function, globals: set<string>)
    requires LowerFunction(f, globals).Some?
    ensures
      var b := FS.Body(f, globals);
      FinalTemp(f, globals) == b.cx.temps
        + (if Epilogue(FS.Opening(|f.params|) + b.code, b.cx.temps) == [] then 0 else 1)
  {
    hide LowerBlock, Epilogue, Prologue;
  }

  lemma OpeningRanged(n: nat)
    ensures Ranged(FS.Opening(n), 2 * n)
    ensures n > 0 ==> Tops(FS.Opening(n), 2 * n)
  {
    hide Ranged, Tops, Prologue;
    PrologueRanged(n, n);
    LabelRanged();
    RangedSum([Label(1)], Prologue(n, n), 0, 2 * n);
    if n > 0 {
      TopsSum([Label(1)], Prologue(n, n), 2 * n);
    }
  }

  lemma LabelRanged()
    ensures Ranged([Label(1)], 0)
  {
  }

  lemma RangedNumbered(fn: Fn, d: nat)
    requires Ranged(fn.code, d)
    ensures F.TempsNumbered(fn)
  {
    hide Uses;
    forall i | 0 <= i < |fn.code| && Sets(fn.code[i])
      ensures Dest(fn.code[i]) != 0
    {
    }
  }

  /** The word of temp t and the word of cell k, below a base. */
  function TempWord(base: int, t: nat): int {
    base - 8 * t
  }

  function CellWord(fn: Fn, base: int, k: nat): int {
    base - 8 * (TopTemp(fn) + k + 1)
  }

  /** Within a frame of FrameSize bytes, a multiple of 16, every temp and every cell has a word,
      and no two of them share one. */
  lemma WordsApart(fn: Fn, base: int)
    ensures FrameSize(fn) % 16 == 0
    ensures forall t :: 1 <= t <= TopTemp(fn) ==> base - FrameSize(fn) <= TempWord(base, t) <= base - 8
    ensures forall k :: 0 <= k < Allocs(fn.code) ==> base - FrameSize(fn) <= CellWord(fn, base, k) <= base - 8
    ensures forall t, k :: 1 <= t <= TopTemp(fn) && 0 <= k < Allocs(fn.code) ==>
      TempWord(base, t) != CellWord(fn, base, k)
    ensures forall t, u :: 1 <= t < u <= TopTemp(fn) ==> TempWord(base, t) != TempWord(base, u)
    ensures forall j, k :: 0 <= j < k < Allocs(fn.code) ==> CellWord(fn, base, j) != CellWord(fn, base, k)
  {
    hide TopTemp, Allocs;
    F.FrameHolds(fn);
  }
}
