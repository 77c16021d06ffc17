/** Code placed in a function, the storage its temps hold, and what a piece of a run comes to. */
module Placement {
  import opened Words
  import opened Ast
  import opened Scopes
  import opened Ir
  import opened Lowering
  import S = Source

  // ----- code placed in a function -----

  predicate At(code: seq<Instr>, pc: nat, part: seq<Instr>) {
    pc + |part| <= |code| && code[pc..pc + |part|] == part
  }

  lemma AtSplit(code: seq<Instr>, pc: nat, a: seq<Instr>, b: seq<Instr>)
    requires At(code, pc, a + b)
    ensures At(code, pc, a) && At(code, pc + |a|, b)
  {
    assert code[pc..pc + |a|] == (a + b)[..|a|];
    assert code[pc + |a|..pc + |a| + |b|] == (a + b)[|a|..];
  }

  lemma AtIndex(code: seq<Instr>, pc: nat, part: seq<Instr>, i: nat)
    requires At(code, pc, part) && i < |part|
    ensures pc + i < |code| && code[pc + i] == part[i]
  {
    assert code[pc..pc + |part|][i] == part[i];
  }

  // ----- the storage of an activation -----

  /** The lowering's tables and the source's tables name the same cells: declaration k has
      its address in temp D[k]. */
  ghost predicate ScopeOK(low: Scope, src: Scope, D: seq<nat>) {
    match (low, src)
    case (Globals(a), Globals(b)) => a == b
    case (Inner(a, p), Inner(b, q)) => TableOK(a, b, D) && ScopeOK(p, q, D)
    case _ => false
  }

  ghost predicate TableOK(low: map<string, nat>, src: map<string, nat>, D: seq<nat>) {
    && (forall x :: x in src <==> x in low && low[x] != 0)
    && (forall x :: x in src ==> src[x] < |D| && low[x] == D[src[x]])
  }

  /** Exactly the declarations that were executed have their addresses in their temps. */
  ghost predicate StorageOK(w: World, fr: S.Frame, D: seq<nat>, T: map<nat, Word>) {
    forall k :: 0 <= k < |D| ==>
      && (k in fr.bound <==> D[k] in T)
      && (k in fr.bound ==> T[D[k]] == w.lay.cell(fr.fn, fr.base, k))
  }

  /** No declaration's temp lies in (c, d]. */
  ghost predicate Apart(D: seq<nat>, c: nat, d: nat) {
    forall k :: 0 <= k < |D| ==> D[k] <= c || D[k] > d
  }

  /** Only temps in (c, d] may differ. */
  ghost predicate Agree(T: map<nat, Word>, U: map<nat, Word>, c: nat, d: nat) {
    forall t: nat :: t <= c || t > d ==> (t in T <==> t in U) && (t in T ==> T[t] == U[t])
  }

  lemma AgreeTrans(T: map<nat, Word>, U: map<nat, Word>, V: map<nat, Word>, c: nat, d: nat, e: nat)
    requires Agree(T, U, c, d) && Agree(U, V, d, e) && c <= d <= e
    ensures Agree(T, V, c, e)
  {
  }

  lemma AgreeSet(T: map<nat, Word>, U: map<nat, Word>, c: nat, d: nat, t: nat, v: Word)
    requires Agree(T, U, c, d) && c <= d < t
    ensures Agree(T, U[t := v], c, t)
  {
  }

  lemma AgreeKeeps(T: map<nat, Word>, U: map<nat, Word>, c: nat, d: nat, t: nat)
    requires Agree(T, U, c, d) && t in T && (t <= c || t > d)
    ensures t in U && U[t] == T[t]
  {
  }

  lemma {:induction false} LookupOK(low: Scope, src: Scope, D: seq<nat>, name: string)
    requires ScopeOK(low, src, D)
    ensures Lookup(low, name).Global? <==> (Lookup(low, name) != Local(0) && Lookup(src, name).Global?)
    ensures Lookup(low, name).Local? && Lookup(low, name).n != 0 ==>
              && Lookup(src, name).Local? && Lookup(src, name).n < |D|
              && D[Lookup(src, name).n] == Lookup(low, name).n
    decreases low
  {
    match low
    case Globals(_) =>
    case Inner(_, parent) => LookupOK(parent, src.parent, D, name);
  }

  // ----- what a run of expression code comes to -----

  function Here(act: Act, rest: Stack, mem: Memory, tr: seq<Event>): State {
    Running(Push(act, rest), mem, tr)
  }

  function There(act: Act, n: nat, T: map<nat, Word>): Act {
    act.(pc := act.pc + n, temps := T)
  }

  /** From `s`, the machine does what the answer `r` says; a value is found where `Holds`
      expects it, `n` instructions further on. */
  ghost predicate Comes(m: Machine, s: State, act: Act, rest: Stack, n: nat, T: map<nat, Word>,
                           r: S.Result, fuel: nat)
  {
    match r
    case Ok(_, mem, tr) => Reaches(m, s, Here(There(act, n, T), rest, mem, tr), 0)
    case Timeout(tr) => Lasts(m, s, tr, fuel)
    case Fail(why, tr) => Reaches(m, s, Faulted(why, tr), 0)
  }

  /** `p` was lowered to the functions of `m`. */
  ghost predicate Compiled(p: Program, m: Machine) {
    && LowerProgram(p) == Some(m.fns)
    && forall i :: 0 <= i < |p.fns| ==> Distinct(LabelsIn(p.fns[i].body))
  }

  /** The activation is about to run `code`, which sets temps in (c, d] only, and its storage
      is that of the source frame. */
  ghost predicate Before(p: Program, m: Machine, sc: Scope, fr: S.Frame, D: seq<nat>,
                         code: seq<Instr>, c: nat, d: nat, act: Act)
  {
    && Compiled(p, m)
    && act.fn.name == fr.fn && act.base == fr.base
    && ScopeOK(sc, fr.scope, D)
    && StorageOK(m.w, fr, D, act.temps)
    && Apart(D, c, d)
    && c <= d
    && At(act.fn.code, act.pc, code)
  }

  lemma BeforeFirst(p: Program, m: Machine, sc: Scope, fr: S.Frame, D: seq<nat>, first: seq<Instr>,
                    second: seq<Instr>, c: nat, d: nat, e: nat, act: Act)
    requires Before(p, m, sc, fr, D, first + second, c, e, act) && c <= d <= e
    ensures Before(p, m, sc, fr, D, first, c, d, act)
    ensures At(act.fn.code, act.pc + |first|, second)
  {
    hide Compiled, ScopeOK;
    AtSplit(act.fn.code, act.pc, first, second);
  }

  lemma BeforeNext(p: Program, m: Machine, sc: Scope, fr: S.Frame, D: seq<nat>, first: seq<Instr>,
                   second: seq<Instr>, c: nat, d: nat, e: nat, act: Act, U: map<nat, Word>)
    requires Before(p, m, sc, fr, D, first + second, c, e, act) && c <= d <= e
    requires Agree(act.temps, U, c, d)
    ensures Before(p, m, sc, fr, D, second, d, e, There(act, |first|, U))
  {
    hide Compiled, ScopeOK;
    AtSplit(act.fn.code, act.pc, first, second);
  }

  lemma BeforeBoth(p: Program, m: Machine, sc: Scope, fr: S.Frame, D: seq<nat>, a: seq<Instr>,
                   b: seq<Instr>, i: Instr, c: nat, c1: nat, c2: nat, e: nat, act: Act)
    requires Before(p, m, sc, fr, D, a + b + [i], c, e, act) && c <= c1 <= c2 <= e
    ensures Before(p, m, sc, fr, D, a, c, c1, act)
    ensures Before(p, m, sc, fr, D, a + b, c, c2, act)
    ensures act.pc + |a| + |b| < |act.fn.code| && act.fn.code[act.pc + |a| + |b|] == i
  {
    hide Before, At;
    BeforeFirst(p, m, sc, fr, D, a + b, [i], c, c2, e, act);
    BeforeFirst(p, m, sc, fr, D, a, b, c, c1, c2, act);
    AtIndex(act.fn.code, act.pc + |a + b|, [i], 0);
  }

  /** A declaration's temp is outside the range that the code sets. */
  lemma BeforeApart(p: Program, m: Machine, sc: Scope, fr: S.Frame, D: seq<nat>, code: seq<Instr>,
                    c: nat, d: nat, act: Act, k: nat)
    requires Before(p, m, sc, fr, D, code, c, d, act) && k < |D|
    ensures D[k] <= c || D[k] > d
  {
    hide Compiled, ScopeOK, At;
  }

  /** The address `a` is what the lvalue stands for. */
  ghost predicate Denotes(w: World, lv: LValue, T: map<nat, Word>, a: Word) {
    match lv
    case AtTemp(t) => t in T && T[t] == a
    case AtGlobal(name) => a == w.lay.global(name)
  }

  /** The lvalue of a variable that has no storage yet: using it is the fault. */
  ghost predicate Hollow(lv: LValue, T: map<nat, Word>, r: S.Result, tr: seq<Event>) {
    lv.AtTemp? && lv.t !in T && r == S.Fail(Unset, tr)
  }

  /** One step, then the rest. */
  lemma Stepped(m: Machine, s: State, t: State, i: nat)
    requires Reaches(m, s, t, i)
    ensures Reaches(m, s, Step(m, t), i + 1) && Reaches(m, s, Step(m, t), i)
  {
    ReachesStep(m, t);
    ReachesTrans(m, s, t, Step(m, t), i, 1);
    ReachesWeaken(m, s, Step(m, t), i + 1, i);
  }

  /** A run that finds no value is the same wherever the value was expected. */
  lemma NotOk(m: Machine, s: State, act: Act, rest: Stack, n: nat, T: map<nat, Word>, n1: nat,
              T1: map<nat, Word>, r: S.Result, fuel: nat)
    requires Comes(m, s, act, rest, n, T, r, fuel) && !r.Ok?
    ensures Comes(m, s, act, rest, n1, T1, r, fuel)
  {
    hide Reaches, Lasts;
  }

  /** What holds from a later state holds from an earlier one. */
  lemma Prepend(m: Machine, s: State, t: State, act: Act, rest: Stack, n: nat,
                   T: map<nat, Word>, r: S.Result, fuel: nat, act0: Act, n0: nat)
    requires Reaches(m, s, t, 0) && Comes(m, t, act, rest, n, T, r, fuel)
    requires There(act0, n0, T) == There(act, n, T)
    ensures Comes(m, s, act0, rest, n0, T, r, fuel)
  {
    match r
    case Ok(_, mem, tr) => ReachesTrans(m, s, t, Here(There(act, n, T), rest, mem, tr), 0, 0);
    case Timeout(tr) => LastsTrans(m, s, t, tr, 0, fuel);
    case Fail(why, tr) => ReachesTrans(m, s, t, Faulted(why, tr), 0, 0);
  }

  // ----- the last instruction of an lvalue's use -----

  lemma LoadSim(m: Machine, lv: LValue, d: nat, r: S.Result, act: Act, rest: Stack,
                mem: Memory, tr: seq<Event>)
    requires act.pc < |act.fn.code| && act.fn.code[act.pc] == LoadLv(lv, d)
    ensures Hollow(lv, act.temps, r, tr) ==>
              Step(m, Here(act, rest, mem, tr)) == Faulted(Unset, tr)
    ensures forall a: Word :: Denotes(m.w, lv, act.temps, a) ==>
              Step(m, Here(act, rest, mem, tr)) ==
                match Fetch(mem, a)
                case Bad(why) => Faulted(why, tr)
                case Got(v) => Here(There(act, 1, act.temps[d := v]), rest, mem, tr)
  {
  }

  lemma StoreSim(m: Machine, lv: LValue, v: nat, r: S.Result, act: Act, rest: Stack,
                 mem: Memory, tr: seq<Event>)
    requires act.pc < |act.fn.code| && act.fn.code[act.pc] == StoreLv(lv, v)
    requires v in act.temps
    ensures Hollow(lv, act.temps, r, tr) ==>
              Step(m, Here(act, rest, mem, tr)) == Faulted(Unset, tr)
    ensures forall a: Word :: Denotes(m.w, lv, act.temps, a) ==>
              Step(m, Here(act, rest, mem, tr)) ==
                if a in mem
                then Here(There(act, 1, act.temps), rest, mem[a := Is(act.temps[v])], tr)
                else Faulted(Unmapped, tr)
  {
  }

  lemma AddressSim(m: Machine, lv: LValue, d: nat, r: S.Result, act: Act, rest: Stack,
                   mem: Memory, tr: seq<Event>)
    requires act.pc < |act.fn.code| && act.fn.code[act.pc] == AddressLv(lv, d)
    ensures Hollow(lv, act.temps, r, tr) ==>
              Step(m, Here(act, rest, mem, tr)) == Faulted(Unset, tr)
    ensures forall a: Word :: Denotes(m.w, lv, act.temps, a) ==>
              Step(m, Here(act, rest, mem, tr)) ==
                Here(There(act, 1, act.temps[d := a]), rest, mem, tr)
  {
  }

  lemma ConstSim(m: Machine, d: nat, n: Word, act: Act, rest: Stack, mem: Memory, tr: seq<Event>)
    requires act.pc < |act.fn.code| && act.fn.code[act.pc] == Const(d, n)
    ensures Step(m, Here(act, rest, mem, tr)) == Here(There(act, 1, act.temps[d := n]), rest, mem, tr)
  {
  }

  lemma DataSim(m: Machine, d: nat, n: nat, act: Act, rest: Stack, mem: Memory, tr: seq<Event>)
    requires act.pc < |act.fn.code| && act.fn.code[act.pc] == Data(d, n)
    ensures Step(m, Here(act, rest, mem, tr)) ==
              Here(There(act, 1, act.temps[d := m.w.lay.data(n)]), rest, mem, tr)
  {
  }

  lemma NegateSim(m: Machine, d: nat, t: nat, act: Act, rest: Stack, mem: Memory, tr: seq<Event>)
    requires act.pc < |act.fn.code| && act.fn.code[act.pc] == Instr.Neg(d, t) && t in act.temps
    ensures Step(m, Here(act, rest, mem, tr)) ==
              Here(There(act, 1, act.temps[d := Negate(act.temps[t])]), rest, mem, tr)
  {
  }

  lemma BinSim(m: Machine, o: BinOp, d: nat, t: nat, u: nat, act: Act, rest: Stack, mem: Memory,
               tr: seq<Event>)
    requires act.pc < |act.fn.code| && act.fn.code[act.pc] == Bin(o, d, t, u)
    requires t in act.temps && u in act.temps
    ensures Step(m, Here(act, rest, mem, tr)) ==
              match Apply(o, act.temps[t], act.temps[u])
              case None => Faulted(NoQuotient, tr)
              case Some(v) => Here(There(act, 1, act.temps[d := v]), rest, mem, tr)
  {
  }
}
