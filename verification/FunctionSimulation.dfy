/** Lowering preserves meaning: whole functions and whole programs. */
module FunctionSimulation {
  import opened Words
  import opened Ast
  import opened Scopes
  import opened Ir
  import opened Lowering
  import opened CodeShape
  import opened CodeLabels
  import opened Placement
  import opened ExprSimulation
  import opened StmtSimulation
  import opened Preservation
  import S = Source

  // ----- the parts of a lowered function -----

  function Body(f: Function, globals: set<string>): LowStmt {
    LowerBlock(f.body, FirstContext(f, globals))
  }

  /** The code before the body. */
  function Opening(n: nat): seq<Instr> {
    [Label(1)] + Prologue(n, n)
  }

  lemma FunctionDef(f: Function, globals: set<string>)
    requires LowerFunction(f, globals).Some?
    ensures
      var g := LowerFunction(f, globals).value;
      var b := Body(f, globals);
      var n := |f.params|;
      b.Lowered? && g.name == f.name && g.params == n &&
      g.code == Opening(n) + b.code + Epilogue(Opening(n) + b.code, b.cx.temps)
  {
    hide LowerBlock, Epilogue;
  }

  lemma {:induction false} PrologueShape(n: nat, i: nat)
    ensures |Prologue(n, i)| == 3 * i && Allocs(Prologue(n, i)) == i
    ensures forall x :: x in Prologue(n, i) ==> !x.Label? && !x.Jump? && !x.Branch? && !x.Return?
  {
    if i != 0 {
      PrologueShape(n, i - 1);
      var a, b := [Alloc(n + i)], [Instr.Store(n + i, i), Instr.Address(i, n + i)];
      assert [Alloc(n + i), Instr.Store(n + i, i), Instr.Address(i, n + i)] == a + b;
      AllocTempsSum(Prologue(n, i - 1), a + b);
      AllocTempsSum(a, b);
      NoAllocs(b);
      OneAlloc(Alloc(n + i));
    }
  }

  /** The three instructions of parameter j, behind those of the parameters before it. */
  lemma {:induction false} PrologueItem(n: nat, i: nat, j: nat)
    requires 1 <= j <= i
    ensures |Prologue(n, i)| == 3 * i && |Prologue(n, j - 1)| == 3 * (j - 1)
    ensures Prologue(n, i)[..3 * (j - 1)] == Prologue(n, j - 1)
    ensures Prologue(n, i)[3 * (j - 1)] == Alloc(n + j)
    ensures Prologue(n, i)[3 * (j - 1) + 1] == Instr.Store(n + j, j)
    ensures Prologue(n, i)[3 * (j - 1) + 2] == Instr.Address(j, n + j)
    decreases i
  {
    PrologueSize(n, i);
    PrologueSize(n, i - 1);
    if j < i {
      PrologueItem(n, i - 1, j);
    }
  }

  lemma {:induction false} PrologueSize(n: nat, i: nat)
    ensures |Prologue(n, i)| == 3 * i
  {
    if i != 0 {
      PrologueSize(n, i - 1);
    }
  }

  /** The temps of the declarations of a function: parameter i in temp i, then the `auto`s. */
  function DeclTemps(f: Function, globals: set<string>): seq<nat>
    requires Body(f, globals).Lowered?
  {
    seq(|f.params|, i requires 0 <= i < |f.params| => i + 1) + AllocTemps(Body(f, globals).code)
  }

  lemma FirstSound(f: Function, globals: set<string>)
    ensures Sound(FirstContext(f, globals))
    ensures forall x :: x in LabelsIn(f.body) <==> x in FirstContext(f, globals).table
    ensures forall x :: x in FirstContext(f, globals).table ==> FirstContext(f, globals).table[x] == 0
  {
  }

  /** A lowered function has one cell for each of its declarations. */
  lemma CellsOfFunction(f: Function, globals: set<string>)
    requires LowerFunction(f, globals).Some?
    ensures Allocs(LowerFunction(f, globals).value.code) == Cells(f)
  {
    hide LowerBlock, LowerFunction, AllocTemps, Allocs, Rising, Prologue, AutosIn;
    FunctionDef(f, globals);
    var b := Body(f, globals);
    var n := |f.params|;
    var e := Epilogue(Opening(n) + b.code, b.cx.temps);
    PrologueShape(n, n);
    OneAlloc(Label(1));
    NoAllocs(e);
    BlockAllocs(f.body, FirstContext(f, globals));
    AllocTempsSum(Opening(n) + b.code, e);
    AllocTempsSum(Opening(n), b.code);
    AllocTempsSum([Label(1)], Prologue(n, n));
  }

  /** Label numbers are unique in the whole function, and the user's labels are all there. */
  lemma FunctionFits(f: Function, globals: set<string>)
    requires LowerFunction(f, globals).Some? && Distinct(LabelsIn(f.body))
    ensures Body(f, globals).Lowered?
    ensures Fits(LowerFunction(f, globals).value.code, Body(f, globals).cx.table)
  {
    hide LowerBlock, LowerFunction, Closed, FindLabel, Fresh, Owned, Sound, Grows, Prologue, LabelsIn;
    FunctionDef(f, globals);
    FirstSound(f, globals);
    var cx0 := FirstContext(f, globals);
    var b := Body(f, globals);
    var n := |f.params|;
    var C := LowerFunction(f, globals).value.code;
    var e := Epilogue(Opening(n) + b.code, b.cx.temps);
    BlockKept(f.body, cx0);
    PrologueShape(n, n);
    assert Defines(b.code, LabelsIn(f.body), cx0, b.cx);
    forall i | 0 < i < |C|
      ensures C[i].Label? ==>
                && |Opening(n)| <= i < |Opening(n)| + |b.code| && C[i] == b.code[i - |Opening(n)|]
                && C[i] != Label(1)
    {
      if i >= |Opening(n)| + |b.code| {
        assert C[i] == e[i - |Opening(n)| - |b.code|] && !e[i - |Opening(n)| - |b.code|].Label?;
      } else if i >= |Opening(n)| {
        assert C[i] == b.code[i - |Opening(n)|];
        if C[i].Label? {
          NotFirst(C[i].id, LabelsIn(f.body), cx0, b.cx);
        }
      } else {
        assert C[i] == Prologue(n, n)[i - 1] && Prologue(n, n)[i - 1] in Prologue(n, n);
      }
    }
    assert C[0] == Label(1);
    assert Unique(C);
    TableKeys(cx0, b.cx);
    forall x | x in b.cx.table
      ensures FindLabel(C, b.cx.table[x]) < |C|
    {
      var l := Label(b.cx.table[x]);
      assert l in b.code;
      var i :| 0 <= i < |b.code| && b.code[i] == l;
      assert C[|Opening(n)| + i] == l;
      FindUnique(C, |Opening(n)| + i, b.cx.table[x]);
    }
  }

  lemma TableKeys(cx: Context, cx1: Context)
    requires Grows(cx, cx1)
    ensures cx1.table.Keys == cx.table.Keys
  {
  }

  lemma NotFirst(id: nat, names: seq<string>, cx0: Context, cx1: Context)
    requires Grows(cx0, cx1) && cx0.labels == 1 && (forall x :: x in cx0.table ==> cx0.table[x] == 0)
    requires Fresh(id, cx0, cx1) || Owned(id, names, cx1)
    ensures id != 1
  {
  }

  /** The body at its place in the function. */
  lemma FunctionSited(f: Function, globals: set<string>)
    requires LowerFunction(f, globals).Some? && Distinct(LabelsIn(f.body))
    ensures Body(f, globals).Lowered?
    ensures
      var C := LowerFunction(f, globals).value.code;
      var b := Body(f, globals);
      var n := |f.params|;
      Sited(C, DeclTemps(f, globals), b.cx.table, n, 1 + 3 * n, b.code, FirstContext(f, globals), b.cx)
  {
    hide LowerBlock, LowerFunction, Closed, Defines, Fits, Sound, Grows, AllocTemps, Allocs, Prologue, LabelsIn;
    FunctionDef(f, globals);
    FirstSound(f, globals);
    FunctionFits(f, globals);
    var C := LowerFunction(f, globals).value.code;
    var b := Body(f, globals);
    var n := |f.params|;
    PrologueShape(n, n);
    BlockAllocs(f.body, FirstContext(f, globals));
    OneAlloc(Label(1));
    AllocTempsSum([Label(1)], Prologue(n, n));
    assert C[..1 + 3 * n] == Opening(n);
    assert At(C, 1 + 3 * n, b.code);
  }

  // ----- the prologue -----

  /** What the temps hold when i parameters have been stored. */
  ghost predicate Stored(w: World, fn: string, base: Word, args: seq<Word>, i: nat, T: map<nat, Word>) {
    var n := |args|;
    && (forall j: nat :: 1 <= j <= i ==> j in T && T[j] == w.lay.cell(fn, base, j - 1))
    && (forall j: nat :: i < j <= n ==> j in T && T[j] == args[j - 1])
    && (forall j: nat :: j == 0 || j > 2 * n ==> j !in T)
  }

  /** One parameter: its cell is allocated, filled, and its temp becomes the cell's address. */
  lemma StoredNext(w: World, fn: string, base: Word, args: seq<Word>, i: nat, T: map<nat, Word>)
    requires i < |args| && Stored(w, fn, base, args, i, T)
    ensures i + 1 in T && T[i + 1] == args[i]
    ensures var a := w.lay.cell(fn, base, i); Stored(w, fn, base, args, i + 1, T[|args| + i + 1 := a][i + 1 := a])
  {
  }

  lemma StoreParam(m: Machine, act: Act, rest: Stack, mem: Memory, tr: seq<Event>, args: seq<Word>, i: nat)
    returns (T: map<nat, Word>)
    requires i < |args| && act.pc + 3 <= |act.fn.code|
    requires act.fn.code[act.pc] == Alloc(|args| + i + 1)
    requires act.fn.code[act.pc + 1] == Instr.Store(|args| + i + 1, i + 1)
    requires act.fn.code[act.pc + 2] == Instr.Address(i + 1, |args| + i + 1)
    requires Allocs(act.fn.code[..act.pc]) == i
    requires Stored(m.w, act.fn.name, act.base, args, i, act.temps)
    requires m.w.lay.cell(act.fn.name, act.base, i) in mem
    ensures Stored(m.w, act.fn.name, act.base, args, i + 1, T)
    ensures
      var mem1 := mem[m.w.lay.cell(act.fn.name, act.base, i) := Is(args[i])];
      Reaches(m, Here(act, rest, mem, tr), Here(There(act, 3, T), rest, mem1, tr), 0)
  {
    hide Reaches, Step, Allocs, Stored;
    var n := |args|;
    var a := m.w.lay.cell(act.fn.name, act.base, i);
    StoredNext(m.w, act.fn.name, act.base, args, i, act.temps);
    var s := Here(act, rest, mem, tr);
    var T1 := act.temps[n + i + 1 := a];
    ReachesSelf(m, s);
    AllocStep(m, act, rest, mem, tr, n + i + 1);
    Stepped(m, s, s, 0);
    var a1 := There(act, 1, T1);
    StoreSim(m, AtTemp(n + i + 1), i + 1, S.Ok(a, mem, tr), a1, rest, mem, tr);
    assert Denotes(m.w, AtTemp(n + i + 1), T1, a);
    Stepped(m, s, Here(a1, rest, mem, tr), 0);
    var mem1 := mem[a := Is(args[i])];
    var a2 := There(act, 2, T1);
    assert There(a1, 1, T1) == a2;
    AddressSim(m, AtTemp(n + i + 1), i + 1, S.Ok(a, mem, tr), a2, rest, mem1, tr);
    Stepped(m, s, Here(a2, rest, mem1, tr), 0);
    T := T1[i + 1 := a];
  }

  lemma {:induction false} PrologueSim(m: Machine, act: Act, rest: Stack, mem: Memory, tr: seq<Event>,
                                      args: seq<Word>, i: nat)
    returns (T: map<nat, Word>)
    requires i <= |args| && act.pc == 1 && act.temps == ArgTemps(args)
    requires At(act.fn.code, 0, Opening(|args|))
    requires forall j: nat :: j < |args| ==> m.w.lay.cell(act.fn.name, act.base, j) in mem
    ensures Stored(m.w, act.fn.name, act.base, args, i, T)
    ensures
      var mem1 := S.StoreArgs(m.w, act.fn.name, act.base, args[..i], mem);
      Reaches(m, Here(act, rest, mem, tr), Here(act.(pc := 1 + 3 * i, temps := T), rest, mem1, tr), 0)
    decreases i
  {
    hide Reaches, Step, Allocs, Stored, AllocTemps, At, Prologue;
    var s := Here(act, rest, mem, tr);
    var n := |args|;
    if i == 0 {
      T := act.temps;
      assert Stored(m.w, act.fn.name, act.base, args, 0, T) by { StoredNone(m.w, act.fn.name, act.base, args); }
      ReachesSelf(m, s);
      assert act.(pc := 1 + 3 * 0, temps := T) == act;
    } else {
      var U := PrologueSim(m, act, rest, mem, tr, args, i - 1);
      var mem1 := S.StoreArgs(m.w, act.fn.name, act.base, args[..i - 1], mem);
      var a1 := act.(pc := 1 + 3 * (i - 1), temps := U);
      StoreArgsKeys(m.w, act.fn.name, act.base, args[..i - 1], mem);
      PrologueAt(act.fn.code, n, i);
      T := StoreParam(m, a1, rest, mem1, tr, args, i - 1);
      assert args[..i][..i - 1] == args[..i - 1];
      assert There(a1, 3, T) == act.(pc := 1 + 3 * i, temps := T);
      var mem2 := S.StoreArgs(m.w, act.fn.name, act.base, args[..i], mem);
      ReachesTrans(m, s, Here(a1, rest, mem1, tr), Here(act.(pc := 1 + 3 * i, temps := T), rest, mem2, tr), 0, 0);
    }
  }

  lemma StoredNone(w: World, fn: string, base: Word, args: seq<Word>)
    ensures Stored(w, fn, base, args, 0, ArgTemps(args))
  {
  }

  lemma {:induction false} StoreArgsKeys(w: World, fn: string, base: Word, args: seq<Word>, mem: Memory)
    ensures forall a :: a in mem ==> a in S.StoreArgs(w, fn, base, args, mem)
  {
    if args != [] {
      StoreArgsKeys(w, fn, base, args[..|args| - 1], mem);
    }
  }

  lemma PrologueAt(C: seq<Instr>, n: nat, i: nat)
    requires At(C, 0, Opening(n)) && 1 <= i <= n
    ensures
      var pc := 1 + 3 * (i - 1);
      && pc + 3 <= |C|
      && C[pc] == Alloc(n + i) && C[pc + 1] == Instr.Store(n + i, i) && C[pc + 2] == Instr.Address(i, n + i)
      && Allocs(C[..pc]) == i - 1
  {
    hide Prologue, Allocs, AllocTemps;
    PrologueItem(n, n, i);
    PrologueShape(n, i - 1);
    var pc := 1 + 3 * (i - 1);
    forall j: nat | j < |Opening(n)|
      ensures C[j] == Opening(n)[j]
    {
      AtIndex(C, 0, Opening(n), j);
    }
    assert C[..pc] == [Label(1)] + Prologue(n, i - 1);
    AllocTempsSum([Label(1)], Prologue(n, i - 1));
    OneAlloc(Label(1));
  }

  // ----- entering a function -----

  lemma {:induction false} ParamScopes(params: seq<string>, D: seq<nat>)
    requires |params| <= |D| && forall i :: 0 <= i < |params| ==> D[i] == i + 1
    ensures TableOK(ParamTemps(params), S.ParamTable(params), D)
  {
    if params != [] {
      ParamScopes(params[..|params| - 1], D);
    }
  }

  /** The frame of the function before its body's block is opened. */
  function OuterFrame(p: Program, f: Function, base: Word, bound: set<nat>): S.Frame {
    S.Frame(f.name, base, Inner(S.ParamTable(f.params), Globals(p.globals.Keys)), bound)
  }

  /** The body of function `i` can be entered: its code is at its place and its storage is that
      of the source frame. */
  ghost predicate Entered'(p: Program, m: Machine, i: nat, act: Act, bound: set<nat>)
    requires i < |p.fns|
  {
    var f := p.fns[i];
    var G := p.globals.Keys;
    && Compiled(p, m) && i < |m.fns| && act.fn == m.fns[i]
    && Body(f, G).Lowered?
    && StorageOK(m.w, OuterFrame(p, f, act.base, bound), DeclTemps(f, G), act.temps)
  }

  lemma LoweredAt(p: Program, m: Machine, i: nat)
    requires Compiled(p, m) && i < |p.fns| && i < |m.fns|
    ensures LowerFunction(p.fns[i], p.globals.Keys) == Some(m.fns[i])
    ensures Distinct(LabelsIn(p.fns[i].body))
    ensures m.fns[i].name == p.fns[i].name && m.fns[i].params == |p.fns[i].params|
    ensures Allocs(m.fns[i].code) == Cells(p.fns[i])
    ensures Body(p.fns[i], p.globals.Keys).Lowered?
  {
    hide LowerFunction, Allocs, Cells, LowerBlock;
    CellsOfFunction(p.fns[i], p.globals.Keys);
    FunctionDef(p.fns[i], p.globals.Keys);
  }

  lemma BodyReady(p: Program, m: Machine, i: nat, act: Act, bound: set<nat>, mode: S.Mode)
    requires i < |p.fns| && Entered'(p, m, i, act, bound)
    requires
      var f := p.fns[i];
      Enters(mode, act, 1 + 3 * |f.params|, Body(f, p.globals.Keys).cx.table, LabelsIn(f.body))
    ensures
      var f := p.fns[i];
      var G := p.globals.Keys;
      Ready(p, m, DeclTemps(f, G), Body(f, G).cx.table, FirstContext(f, G), OuterFrame(p, f, act.base, bound),
            |f.params|, mode, 1 + 3 * |f.params|, act, Body(f, G), LabelsIn(f.body))
  {
    hide LowerBlock, LowerFunction, Sited, StorageOK, Enters, LabelsIn, AllocTemps, Rising;
    var f := p.fns[i];
    var G := p.globals.Keys;
    LoweredAt(p, m, i);
    FunctionSited(f, G);
    ParamScopes(f.params, DeclTemps(f, G));
    assert ScopeOK(FirstContext(f, G).scope, OuterFrame(p, f, act.base, bound).scope, DeclTemps(f, G));
    assert Matched(p, m, FirstContext(f, G).scope, OuterFrame(p, f, act.base, bound), DeclTemps(f, G), act);
  }

  /** What a whole call comes to. */
  ghost predicate OutcomeIs(m: Machine, s: State, act: Act, rest: Stack, o: S.Outcome, fuel: nat) {
    match o
    case Returned(v, mem, tr) => Reaches(m, s, Leaves(m, act, rest, v, mem, tr), 0)
    case Expired(tr) => Lasts(m, s, tr, fuel)
    case Failed(why, tr) => Reaches(m, s, Faulted(why, tr), 0)
    case _ => false
  }

  lemma EndsFrom(m: Machine, s: State, t: State, act: Act, act1: Act, rest: Stack, o: S.Outcome, fuel: nat)
    requires Reaches(m, s, t, 0) && OutcomeIs(m, t, act1, rest, o, fuel)
    requires act1.fn == act.fn && act1.base == act.base
    ensures OutcomeIs(m, s, act, rest, o, fuel)
  {
    hide Reaches, Lasts;
    match o
    case Returned(v, mem, tr) => ReachesTrans(m, s, t, Leaves(m, act, rest, v, mem, tr), 0, 0);
    case Expired(tr) => LastsTrans(m, s, t, tr, 0, fuel);
    case Failed(why, tr) => ReachesTrans(m, s, t, Faulted(why, tr), 0, 0);
  }

  /** As `EndsFrom`, when a step was made for the fuel spent. */
  lemma EndsMore(m: Machine, s: State, t: State, act: Act, act1: Act, rest: Stack, o: S.Outcome, fuel: nat)
    requires fuel > 0 && Reaches(m, s, t, 1) && OutcomeIs(m, t, act1, rest, o, fuel - 1)
    requires act1.fn == act.fn && act1.base == act.base
    ensures OutcomeIs(m, s, act, rest, o, fuel)
  {
    hide Reaches, Lasts;
    match o
    case Returned(v, mem, tr) => ReachesOn(m, s, t, Leaves(m, act, rest, v, mem, tr), 0);
    case Expired(tr) => LastsTrans(m, s, t, tr, 1, fuel - 1);
    case Failed(why, tr) => ReachesOn(m, s, t, Faulted(why, tr), 0);
  }

  /** Falling off the end of the body meets the implicit `return 0`. */
  lemma FallOff(p: Program, m: Machine, i: nat, act: Act, rest: Stack, mem: Memory, tr: seq<Event>, s: State)
    requires i < |p.fns| && Compiled(p, m) && i < |m.fns| && act.fn == m.fns[i]
    requires Body(p.fns[i], p.globals.Keys).Lowered?
    requires act.pc == 1 + 3 * |p.fns[i].params| + |Body(p.fns[i], p.globals.Keys).code|
    requires Clean(act.fn.code, act.pc)
    requires Reaches(m, s, Here(act, rest, mem, tr), 0)
    ensures Reaches(m, s, Leaves(m, act, rest, 0, mem, tr), 0)
  {
    hide Reaches, Step, LowerFunction, LowerBlock, Prologue;
    var f := p.fns[i];
    var b := Body(f, p.globals.Keys);
    var n := |f.params|;
    FunctionDef(f, p.globals.Keys);
    PrologueShape(n, n);
    var all := Opening(n) + b.code;
    var c := b.cx.temps;
    assert |all| == act.pc && all[|all| - 1] == act.fn.code[act.pc - 1];
    ConstSim(m, c + 1, 0, act, rest, mem, tr);
    Stepped(m, s, Here(act, rest, mem, tr), 0);
    var a1 := There(act, 1, act.temps[c + 1 := 0]);
    ReturnStep(m, a1, rest, mem, tr, c + 1);
    Stepped(m, s, Here(a1, rest, mem, tr), 0);
  }

  lemma {:induction false} BodySim(p: Program, m: Machine, i: nat, act: Act, rest: Stack, bound: set<nat>,
      mode: S.Mode, mem: Memory, tr: seq<Event>, fuel: nat)
    requires Calls(p, m, fuel) && i < |p.fns| && Entered'(p, m, i, act, bound)
    requires
      var f := p.fns[i];
      Enters(mode, act, 1 + 3 * |f.params|, Body(f, p.globals.Keys).cx.table, LabelsIn(f.body))
    ensures
      var f := p.fns[i];
      OutcomeIs(m, Here(act, rest, mem, tr), act, rest,
           S.RunBody(p, m.w, f, S.FirstFrame(p, f, act.base).(bound := bound), mode, mem, tr, fuel), fuel)
    decreases fuel
  {
    hide Calls, Compiled, Ready, S.ExecAll, LowerBlock, StorageOK, Reaches, Lasts, DeclTemps, LabelsIn, FindLabel,
      Clean, S.ParamTable;
    var f := p.fns[i];
    var G := p.globals.Keys;
    var n := |f.params|;
    var D := DeclTemps(f, G);
    var b := Body(f, G);
    var fr := OuterFrame(p, f, act.base, bound);
    var s := Here(act, rest, mem, tr);
    BodyReady(p, m, i, act, bound, mode);
    assert S.Opened(fr) == S.FirstFrame(p, f, act.base).(bound := bound);
    var T := BlockSim(p, m, D, b.cx.table, FirstContext(f, G), fr, f.body, n, mode, 1 + 3 * n, act, rest, mem, tr,
                      fuel);
    var o := S.ExecAll(p, m.w, S.Opened(fr), f.body, n, mode, mem, tr, fuel);
    match o {
      case Next(mem1, tr1, _) =>
        FallOff(p, m, i, Then(act, 1 + 3 * n + |b.code|, T), rest, mem1, tr1, s);
      case Jumped(x, mem1, tr1, bound1) =>
        if x in LabelsIn(f.body) {
          var act1 := Then(act, FindLabel(act.fn.code, b.cx.table[x]), T);
          var t := Here(act1, rest, mem1, tr1);
          BareStorage(m.w, fr, fr.scope, bound1, D, T);
          if fuel == 0 {
            ReachesWeaken(m, s, t, 1, 0);
            LastsAt(m, s, t);
          } else {
            FewerCalls(p, m, fuel);
            BodySim(p, m, i, act1, rest, bound1, S.Seek(x), mem1, tr1, fuel - 1);
            EndsMore(m, s, t, act, act1, rest,
                     S.RunBody(p, m.w, f, S.FirstFrame(p, f, act.base).(bound := bound1), S.Seek(x), mem1, tr1,
                               fuel - 1),
                     fuel);
          }
        } else {
          NoStray(p, m, i, x, b);
        }
      case Returned(_, _, _) =>
      case Expired(_) =>
      case Failed(_, _) =>
    }
  }

  lemma LastsAt(m: Machine, s: State, t: State)
    requires t.Running? && Reaches(m, s, t, 0)
    ensures Lasts(m, s, t.trace, 0)
  {
    hide Reaches;
  }

  /** Every label the function jumps to is one of its own. */
  lemma NoStray(p: Program, m: Machine, i: nat, x: string, b: LowStmt)
    requires Compiled(p, m) && i < |p.fns| && b == Body(p.fns[i], p.globals.Keys) && b.Lowered?
    ensures x in b.cx.table ==> x in LabelsIn(p.fns[i].body)
  {
    hide LowerBlock, LowerFunction, Defines, Closed, Sound, LabelsIn;
    var f := p.fns[i];
    FirstSound(f, p.globals.Keys);
    BlockKept(f.body, FirstContext(f, p.globals.Keys));
  }

  /** Entering a function at its first instruction does what the source says. */
  lemma {:induction false} EnterSim(p: Program, m: Machine, i: nat, base: Word, args: seq<Word>,
      rest: Stack, mem: Memory, tr: seq<Event>, fuel: nat)
    requires Compiled(p, m) && i < |p.fns| && i < |m.fns| && |args| == |p.fns[i].params|
    ensures Entering(p, m, i, base, args, rest, mem, tr, fuel)
    decreases fuel
  {
    hide Reaches, Lasts, Calls, Compiled, S.RunBody, Leaves, Entered', S.StoreArgs, Allocs, Step;
    var f := p.fns[i];
    var w := m.w;
    var cells := CellSet(w, f.name, base, Cells(f));
    var mem0 := Allocate(mem, cells);
    var mem1 := S.StoreArgs(w, f.name, base, args, mem0);
    var act0 := Act(m.fns[i], base, 0, ArgTemps(args));
    EnteredState(p, m, i, base, args, rest, mem, tr);
    var T := OpenFunction(p, m, i, base, args, rest, mem0, tr);
    var n := |args|;
    var act1 := act0.(pc := 1 + 3 * n, temps := T);
    var bound := S.Numbers(n);
    AllCalls(p, m, fuel);
    OpenedBody(p, m, i, act1, args);
    BodySim(p, m, i, act1, rest, bound, S.Start, mem1, tr, fuel);
    var o := S.RunBody(p, w, f, S.FirstFrame(p, f, base), S.Start, mem1, tr, fuel);
    assert S.FirstFrame(p, f, base).(bound := bound) == S.FirstFrame(p, f, base);
    EndsFrom(m, Here(act0, rest, mem0, tr), Here(act1, rest, mem1, tr), act0, act1, rest, o, fuel);
    Answer(p, m, i, act0, args, rest, mem, tr, o, fuel);
  }

  lemma {:induction false} AllCalls(p: Program, m: Machine, fuel: nat)
    requires Compiled(p, m)
    ensures Calls(p, m, fuel)
    decreases fuel, 0
  {
    hide Entering, Compiled;
    forall j: nat, base: Word, args: seq<Word>, rest: Stack, mem: Memory, tr: seq<Event>, n: nat
      | n < fuel && j < |p.fns| && j < |m.fns| && |args| == |p.fns[j].params|
      ensures Entering(p, m, j, base, args, rest, mem, tr, n)
    {
      EnterSim(p, m, j, base, args, rest, mem, tr, n);
    }
  }

  lemma EnteredState(p: Program, m: Machine, i: nat, base: Word, args: seq<Word>, rest: Stack, mem: Memory,
                     tr: seq<Event>)
    requires Compiled(p, m) && i < |p.fns| && i < |m.fns|
    ensures Entered(m, m.fns[i], base, args, rest, mem, tr) ==
              Here(Act(m.fns[i], base, 0, ArgTemps(args)), rest,
                   Allocate(mem, CellSet(m.w, p.fns[i].name, base, Cells(p.fns[i]))), tr)
  {
    hide Compiled, Allocs, Cells, LowerBlock, LowerFunction;
    LoweredAt(p, m, i);
  }

  /** From the first instruction to the body. */
  lemma OpenFunction(p: Program, m: Machine, i: nat, base: Word, args: seq<Word>, rest: Stack, mem0: Memory,
                     tr: seq<Event>)
    returns (T: map<nat, Word>)
    requires Compiled(p, m) && i < |p.fns| && i < |m.fns| && |args| == |p.fns[i].params|
    requires forall a :: a in CellSet(m.w, p.fns[i].name, base, Cells(p.fns[i])) ==> a in mem0
    ensures Stored(m.w, p.fns[i].name, base, args, |args|, T)
    ensures
      var act0 := Act(m.fns[i], base, 0, ArgTemps(args));
      var mem1 := S.StoreArgs(m.w, p.fns[i].name, base, args, mem0);
      Reaches(m, Here(act0, rest, mem0, tr), Here(act0.(pc := 1 + 3 * |args|, temps := T), rest, mem1, tr), 0)
  {
    hide Reaches, Compiled, Stored, S.StoreArgs, Allocs, Step, LowerBlock, LowerFunction, Prologue;
    var f := p.fns[i];
    LoweredAt(p, m, i);
    FunctionDef(f, p.globals.Keys);
    var act0 := Act(m.fns[i], base, 0, ArgTemps(args));
    var C := act0.fn.code;
    var s := Here(act0, rest, mem0, tr);
    assert C[0] == Label(1);
    ReachesSelf(m, s);
    LabelStep(m, act0, rest, mem0, tr);
    Stepped(m, s, s, 0);
    var act1 := act0.(pc := 1);
    assert At(C, 0, Opening(|args|)) by {
      assert C[0..|Opening(|args|)|] == Opening(|args|);
    }
    forall j: nat | j < |args|
      ensures m.w.lay.cell(f.name, base, j) in mem0
    {
      assert m.w.lay.cell(f.name, base, j) in CellSet(m.w, f.name, base, Cells(f));
    }
    T := PrologueSim(m, act1, rest, mem0, tr, args, |args|);
    assert args[..|args|] == args;
    var mem1 := S.StoreArgs(m.w, f.name, base, args, mem0);
    ReachesTrans(m, s, Here(act1, rest, mem0, tr), Here(act0.(pc := 1 + 3 * |args|, temps := T), rest, mem1, tr), 0, 0);
  }

  /** After the prologue, the parameters are the declarations that have storage. */
  lemma OpenedBody(p: Program, m: Machine, i: nat, act: Act, args: seq<Word>)
    requires Compiled(p, m) && i < |p.fns| && i < |m.fns| && |args| == |p.fns[i].params|
    requires act.fn == m.fns[i] && act.pc == 1 + 3 * |args|
    requires Stored(m.w, p.fns[i].name, act.base, args, |args|, act.temps)
    ensures Entered'(p, m, i, act, S.Numbers(|args|))
    ensures
      var f := p.fns[i];
      Enters(S.Start, act, 1 + 3 * |f.params|, Body(f, p.globals.Keys).cx.table, LabelsIn(f.body))
  {
    hide Compiled, Allocs, LowerBlock, LowerFunction, Prologue, AllocTemps;
    var f := p.fns[i];
    var n := |args|;
    LoweredAt(p, m, i);
    FunctionDef(f, p.globals.Keys);
    PrologueShape(n, n);
    BlockAllocs(f.body, FirstContext(f, p.globals.Keys));
    var C := act.fn.code;
    assert C[act.pc - 1] == Opening(n)[3 * n];
    if n > 0 {
      assert Opening(n)[3 * n] == Prologue(n, n)[3 * n - 1];
      assert Prologue(n, n)[3 * n - 1] in Prologue(n, n);
    }
  }

  /** The answer of the body is the answer of the call. */
  lemma Answer(p: Program, m: Machine, i: nat, act: Act, args: seq<Word>, rest: Stack, mem: Memory,
               tr: seq<Event>, o: S.Outcome, fuel: nat)
    requires Compiled(p, m) && i < |p.fns| && i < |m.fns|
    requires act == Act(m.fns[i], act.base, 0, ArgTemps(args))
    requires
      var f := p.fns[i];
      var mem0 := Allocate(mem, CellSet(m.w, f.name, act.base, Cells(f)));
      var mem1 := S.StoreArgs(m.w, f.name, act.base, args, mem0);
      && o == S.RunBody(p, m.w, f, S.FirstFrame(p, f, act.base), S.Start, mem1, tr, fuel)
      && OutcomeIs(m, Here(act, rest, mem0, tr), act, rest, o, fuel)
    ensures Entering(p, m, i, act.base, args, rest, mem, tr, fuel)
  {
    hide Reaches, Lasts, Compiled, S.RunBody, S.StoreArgs, Allocs, LowerBlock, LowerFunction, Cells, S.FirstFrame;
    LoweredAt(p, m, i);
    EnteredState(p, m, i, act.base, args, rest, mem, tr);
  }

  // ----- whole programs -----

  /** The machine about to run function `entry` of a fresh program. */
  function Boot(p: Program, m: Machine, entry: nat, base: Word, args: seq<Word>): State
    requires entry < |m.fns|
  {
    Entered(m, m.fns[entry], base, args, Bottom, S.GlobalMemory(p, m.w), [])
  }

  /** Lowering preserves meaning. Whatever a program does -- answer, fault, or go on for as long
      as we care to watch -- the lowered program does: the same answer, the same memory and the
      same calls in the same order; the same fault after the same calls; or a run of at least as
      many steps with the same calls. Nested blocks, shadowing, loops, `else if` chains, jumps
      into and out of blocks, recursion and pointers are all included, under any layout. */
  lemma LoweringPreservesMeaning(p: Program, m: Machine, entry: nat, base: Word, args: seq<Word>, fuel: nat)
    requires LowerProgram(p) == Some(m.fns) && entry < |m.fns| && |args| == m.fns[entry].params
    requires forall i :: 0 <= i < |p.fns| ==> Distinct(LabelsIn(p.fns[i].body))
    ensures entry < |p.fns|
    ensures
      var s := Boot(p, m, entry, base, args);
      match S.RunProgram(p, m.w, entry, base, args, fuel)
      case Ok(v, mem, tr) => exists n: nat :: Run(m, s, n) == Halted(v, mem, tr)
      case Fail(why, tr) => exists n: nat :: Run(m, s, n) == Faulted(why, tr)
      case Timeout(tr) =>
        exists n: nat :: n >= fuel && Run(m, s, n).Running? && Run(m, s, n).trace == tr
  {
    hide S.Enter, Reaches, Lasts, Run, Entered, S.GlobalMemory;
    assert Compiled(p, m);
    LoweredAt(p, m, entry);
    EnterSim(p, m, entry, base, args, Bottom, S.GlobalMemory(p, m.w), [], fuel);
    var s := Boot(p, m, entry, base, args);
    match S.RunProgram(p, m.w, entry, base, args, fuel)
    case Ok(v, mem, tr) => ReachesRun(m, s, Halted(v, mem, tr));
    case Fail(why, tr) => ReachesRun(m, s, Faulted(why, tr));
    case Timeout(tr) => LastsRun(m, s, tr, fuel);
  }

  lemma ReachesRun(m: Machine, s: State, t: State)
    requires Reaches(m, s, t, 0)
    ensures exists n: nat :: Run(m, s, n) == t
  {
  }

  lemma LastsRun(m: Machine, s: State, tr: seq<Event>, fuel: nat)
    requires Lasts(m, s, tr, fuel)
    ensures exists n: nat :: n >= fuel && Run(m, s, n).Running? && Run(m, s, n).trace == tr
  {
  }
}
