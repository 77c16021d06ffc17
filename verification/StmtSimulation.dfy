/** Lowering preserves meaning: statements, jumps and functions. */
module StmtSimulation {
  import opened Words
  import opened Ast
  import opened Scopes
  import opened Ir
  import opened Lowering
  import opened CodeShape
  import opened CodeLabels
  import opened Placement
  import opened ExprSimulation
  import S = Source

  // ----- code at its place in a function -----

  /** Declarations k, k+1, ... have the temps `own`; earlier ones lie below, later ones above
      the range (c, d]. */
  ghost predicate Owns(D: seq<nat>, k: nat, c: nat, d: nat, own: seq<nat>) {
    && c <= d && k + |own| <= |D|
    && (forall i :: 0 <= i < |own| ==> D[k + i] == own[i])
    && (forall j :: 0 <= j < k ==> D[j] <= c)
    && (forall j :: k + |own| <= j < |D| ==> D[j] > d)
  }

  ghost predicate Increasing(D: seq<nat>) {
    forall i, j :: 0 <= i < j < |D| ==> D[i] < D[j]
  }

  /** `tab` numbers the labels of the whole function, and each is defined in its code. */
  ghost predicate Fits(C: seq<Instr>, tab: map<string, nat>) {
    Unique(C) && forall x :: x in tab ==> FindLabel(C, tab[x]) < |C|
  }

  ghost predicate Agrees(cx: Context, tab: map<string, nat>) {
    forall x :: x in cx.table ==> x in tab && (cx.table[x] != 0 ==> cx.table[x] == tab[x])
  }

  /** `code`, lowered from `cx` to `cx1`, stands at `pc`; the next declaration is number k. */
  ghost predicate Sited(C: seq<Instr>, D: seq<nat>, tab: map<string, nat>, k: nat, pc: nat,
                        code: seq<Instr>, cx: Context, cx1: Context)
  {
    && Fits(C, tab) && Increasing(D)
    && At(C, pc, code)
    && Allocs(C[..pc]) == k
    && Owns(D, k, cx.temps, cx1.temps, AllocTemps(code))
    && Sound(cx) && Agrees(cx1, tab)
  }

  lemma AllocsAt(C: seq<Instr>, pc: nat, part: seq<Instr>)
    requires At(C, pc, part)
    ensures Allocs(C[..pc + |part|]) == Allocs(C[..pc]) + Allocs(part)
  {
    assert C[..pc + |part|] == C[..pc] + part;
    AllocTempsSum(C[..pc], part);
  }

  lemma AgreesBefore(cx: Context, cx1: Context, tab: map<string, nat>)
    requires Grows(cx, cx1) && Agrees(cx1, tab)
    ensures Agrees(cx, tab)
  {
  }

  lemma OwnsSum(D: seq<nat>, k: nat, c: nat, d: nat, e: nat, a: seq<nat>, b: seq<nat>)
    requires Owns(D, k, c, e, a + b) && Rising(a, c, d) && Rising(b, d, e)
    ensures Owns(D, k, c, d, a) && Owns(D, k + |a|, d, e, b)
  {
    forall i | 0 <= i < |b|
      ensures D[k + |a| + i] == b[i]
    {
      assert D[k + (|a| + i)] == (a + b)[|a| + i];
    }
    forall i | 0 <= i < |a|
      ensures D[k + i] == a[i]
    {
      assert D[k + i] == (a + b)[i];
    }
    forall j | k + |a| <= j < |D|
      ensures D[j] > d
    {
      if j < k + |a + b| {
        assert D[j] == b[j - k - |a|];
      }
    }
    forall j | 0 <= j < k + |a|
      ensures D[j] <= d
    {
      if j >= k {
        assert D[j] == a[j - k];
      }
    }
  }

  lemma SitedSum(C: seq<Instr>, D: seq<nat>, tab: map<string, nat>, k: nat, pc: nat, a: seq<Instr>,
                 b: seq<Instr>, cx: Context, cx1: Context, cx2: Context)
    requires Sited(C, D, tab, k, pc, a + b, cx, cx2)
    requires Rising(AllocTemps(a), cx.temps, cx1.temps) && Rising(AllocTemps(b), cx1.temps, cx2.temps)
    requires Sound(cx1) && Grows(cx1, cx2)
    ensures Sited(C, D, tab, k, pc, a, cx, cx1)
    ensures Sited(C, D, tab, k + |AllocTemps(a)|, pc + |a|, b, cx1, cx2)
  {
    hide At, Fits, Sound, Grows, Agrees, Owns, Rising, Increasing;
    AtSplit(C, pc, a, b);
    AllocsAt(C, pc, a);
    AllocTempsSum(a, b);
    OwnsSum(D, k, cx.temps, cx1.temps, cx2.temps, AllocTemps(a), AllocTemps(b));
    AgreesBefore(cx1, cx2, tab);
  }

  lemma FindUnique(C: seq<Instr>, i: nat, id: nat)
    requires Unique(C) && i < |C| && C[i] == Label(id)
    ensures FindLabel(C, id) == i
  {
    var r := FindLabel(C, id);
  }

  // ----- states -----

  /** The activation and the source frame agree. */
  ghost predicate Matched(p: Program, m: Machine, sc: Scope, fr: S.Frame, D: seq<nat>, act: Act) {
    && Compiled(p, m)
    && act.fn.name == fr.fn && act.base == fr.base
    && ScopeOK(sc, fr.scope, D)
    && StorageOK(m.w, fr, D, act.temps)
  }

  /** At a label, or not just behind a return. */
  predicate Clean(C: seq<Instr>, pc: nat) {
    pc <= |C| && ((pc > 0 && !C[pc - 1].Return?) || (pc < |C| && C[pc].Label?))
  }

  /** Where code is entered. */
  predicate Enters(mode: S.Mode, act: Act, pc: nat, tab: map<string, nat>, names: seq<string>) {
    match mode
    case Start => act.pc == pc && Clean(act.fn.code, pc)
    case Seek(x) => x in names && x in tab && act.pc == FindLabel(act.fn.code, tab[x])
  }

  function Then(act: Act, pc: nat, T: map<nat, Word>): Act {
    act.(pc := pc, temps := T)
  }

  /** The frame without its scope, which storage does not depend on. */
  function Bare(fr: S.Frame, bound: set<nat>): S.Frame {
    S.Frame(fr.fn, fr.base, Globals({}), bound)
  }

  lemma BareStorage(w: World, fr: S.Frame, sc: Scope, bound: set<nat>, D: seq<nat>, T: map<nat, Word>)
    ensures StorageOK(w, Bare(fr, bound), D, T) <==> StorageOK(w, S.Frame(fr.fn, fr.base, sc, bound), D, T)
  {
  }

  /** What the caller of `act` sees when the activation answers `v`. */
  function Leaves(m: Machine, act: Act, rest: Stack, v: Word, mem: Memory, tr: seq<Event>): State {
    Resume(rest, v, Free(mem, CellSet(m.w, act.fn.name, act.base, Allocs(act.fn.code))), tr)
  }

  /** From `s`, the machine does what the outcome `o` says; falling through leads to `end`. */
  ghost predicate Does(m: Machine, s: State, act: Act, rest: Stack, end: nat, o: S.Outcome,
                       T: map<nat, Word>, fr: S.Frame, D: seq<nat>, tab: map<string, nat>, fuel: nat)
  {
    match o
    case Next(mem, tr, bound) =>
      Reaches(m, s, Here(Then(act, end, T), rest, mem, tr), 0) && StorageOK(m.w, Bare(fr, bound), D, T)
    case Jumped(x, mem, tr, bound) =>
      && x in tab
      && Reaches(m, s, Here(Then(act, FindLabel(act.fn.code, tab[x]), T), rest, mem, tr), 1)
      && StorageOK(m.w, Bare(fr, bound), D, T)
    case Returned(v, mem, tr) => Reaches(m, s, Leaves(m, act, rest, v, mem, tr), 0)
    case Expired(tr) => Lasts(m, s, tr, fuel)
    case Failed(why, tr) => Reaches(m, s, Faulted(why, tr), 0)
  }

  /** What holds from a later state holds from an earlier one. */
  lemma DoesFrom(m: Machine, s: State, t: State, act: Act, act1: Act, rest: Stack, end: nat, o: S.Outcome,
                 T: map<nat, Word>, fr: S.Frame, fr1: S.Frame, D: seq<nat>, tab: map<string, nat>, fuel: nat)
    requires Reaches(m, s, t, 0) && Does(m, t, act1, rest, end, o, T, fr1, D, tab, fuel)
    requires act1.fn == act.fn && act1.base == act.base && fr1.fn == fr.fn && fr1.base == fr.base
    ensures Does(m, s, act, rest, end, o, T, fr, D, tab, fuel)
  {
    hide Reaches, Lasts, StorageOK;
    match o
    case Next(mem, tr, bound) => ReachesTrans(m, s, t, Here(Then(act, end, T), rest, mem, tr), 0, 0);
    case Jumped(x, mem, tr, bound) =>
      ReachesTrans(m, s, t, Here(Then(act, FindLabel(act.fn.code, tab[x]), T), rest, mem, tr), 0, 1);
    case Returned(v, mem, tr) => ReachesTrans(m, s, t, Leaves(m, act, rest, v, mem, tr), 0, 0);
    case Expired(tr) => LastsTrans(m, s, t, tr, 0, fuel);
    case Failed(why, tr) => ReachesTrans(m, s, t, Faulted(why, tr), 0, 0);
  }

  /** An outcome other than falling through does not depend on where the code ends. */
  lemma DoesElsewhere(m: Machine, s: State, act: Act, rest: Stack, end: nat, end1: nat, o: S.Outcome,
                      T: map<nat, Word>, fr: S.Frame, D: seq<nat>, tab: map<string, nat>, fuel: nat)
    requires Does(m, s, act, rest, end, o, T, fr, D, tab, fuel) && !o.Next?
    ensures Does(m, s, act, rest, end1, o, T, fr, D, tab, fuel)
  {
    hide Reaches, Lasts, StorageOK;
  }

  // ----- single steps -----

  lemma LabelStep(m: Machine, act: Act, rest: Stack, mem: Memory, tr: seq<Event>)
    requires act.pc < |act.fn.code| && act.fn.code[act.pc].Label?
    ensures Step(m, Here(act, rest, mem, tr)) == Here(act.(pc := act.pc + 1), rest, mem, tr)
  {
  }

  lemma JumpStep(m: Machine, act: Act, rest: Stack, mem: Memory, tr: seq<Event>, id: nat)
    requires act.pc < |act.fn.code| && act.fn.code[act.pc] == Jump(id)
    requires FindLabel(act.fn.code, id) < |act.fn.code|
    ensures Step(m, Here(act, rest, mem, tr)) ==
              Here(act.(pc := FindLabel(act.fn.code, id)), rest, mem, tr)
  {
  }

  lemma BranchStep(m: Machine, act: Act, rest: Stack, mem: Memory, tr: seq<Event>, t: nat, yes: nat, no: nat)
    requires act.pc < |act.fn.code| && act.fn.code[act.pc] == Branch(t, yes, no) && t in act.temps
    requires FindLabel(act.fn.code, yes) < |act.fn.code| && FindLabel(act.fn.code, no) < |act.fn.code|
    ensures Step(m, Here(act, rest, mem, tr)) ==
              Here(act.(pc := FindLabel(act.fn.code, if act.temps[t] != 0 then yes else no)), rest, mem, tr)
  {
  }

  lemma ReturnStep(m: Machine, act: Act, rest: Stack, mem: Memory, tr: seq<Event>, t: nat)
    requires act.pc < |act.fn.code| && act.fn.code[act.pc] == Instr.Return(t) && t in act.temps
    ensures Step(m, Here(act, rest, mem, tr)) == Leaves(m, act, rest, act.temps[t], mem, tr)
  {
  }

  lemma AllocStep(m: Machine, act: Act, rest: Stack, mem: Memory, tr: seq<Event>, d: nat)
    requires act.pc < |act.fn.code| && act.fn.code[act.pc] == Alloc(d)
    ensures
      var a := m.w.lay.cell(act.fn.name, act.base, Allocs(act.fn.code[..act.pc]));
      Step(m, Here(act, rest, mem, tr)) == Here(There(act, 1, act.temps[d := a]), rest, mem, tr)
  {
  }
}
