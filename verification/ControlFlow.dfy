/** Control flow of lowered functions: every jump and branch goes to the one definition of its
    label in the same function, and no run leaves a function except by `return`. */
module ControlFlow {
  import opened Words
  import opened Ast
  import opened Ir
  import opened Lowering
  import opened CodeLabels
  import opened StmtSimulation
  import opened FunctionSimulation
  import S = Source

  ghost predicate Leads(code: seq<Instr>, id: nat) {
    exists i :: 0 <= i < |code| && code[i] == Label(id)
  }

  /** No label is defined twice, every target is defined, and the code ends in a return. */
  ghost predicate Sealed(code: seq<Instr>) {
    && Unique(code)
    && code != [] && code[|code| - 1].Return?
    && (forall i :: 0 <= i < |code| && code[i].Jump? ==> Leads(code, code[i].id))
    && (forall i :: 0 <= i < |code| && code[i].Branch? ==> Leads(code, code[i].yes) && Leads(code, code[i].no))
  }

  lemma LeadsIn(code: seq<Instr>, part: seq<Instr>, id: nat)
    requires Label(id) in part && (forall x :: x in part ==> x in code)
    ensures Leads(code, id)
  {
  }

  lemma EndsInReturn(code: seq<Instr>, c: nat)
    requires code != []
    ensures var all := code + Epilogue(code, c); all[|all| - 1].Return?
  {
  }

  /** Forward jumps included: a label may be numbered by a `goto` long before its definition is
      met, and still has exactly one. */
  lemma FunctionSealed(f: Function, globals: set<string>)
    requires LowerFunction(f, globals).Some? && Distinct(LabelsIn(f.body))
    ensures Sealed(LowerFunction(f, globals).value.code)
  {
    hide LowerBlock, LowerFunction, Defines, Sound, Grows, Prologue, LabelsIn, Epilogue, FindLabel, Leads;
    var b, n := Body(f, globals), |f.params|;
    var C := LowerFunction(f, globals).value.code;
    FunctionDef(f, globals);
    FirstSound(f, globals);
    FunctionFits(f, globals);
    BlockKept(f.body, FirstContext(f, globals));
    var e := Epilogue(Opening(n) + b.code, b.cx.temps);
    EndsInReturn(Opening(n) + b.code, b.cx.temps);
    forall i | 0 <= i < |C| && (C[i].Jump? || C[i].Branch?)
      ensures C[i].Jump? ==> Leads(C, C[i].id)
      ensures C[i].Branch? ==> Leads(C, C[i].yes) && Leads(C, C[i].no)
    {
      OnlyBody(f, globals, i);
      BodyLeads(C, b, i - |Opening(n)|);
    }
  }

  lemma OnlyBody(f: Function, globals: set<string>, i: nat)
    requires LowerFunction(f, globals).Some?
    requires i < |LowerFunction(f, globals).value.code|
    ensures
      var b, n := Body(f, globals), |f.params|;
      var C := LowerFunction(f, globals).value.code;
      && b.Lowered? && (forall x :: x in b.code ==> x in C)
      && (C[i].Jump? || C[i].Branch? ==>
            |Opening(n)| <= i < |Opening(n)| + |b.code| && C[i] == b.code[i - |Opening(n)|])
  {
    hide LowerBlock, LowerFunction, Prologue;
    FunctionDef(f, globals);
    var b, n := Body(f, globals), |f.params|;
    PrologueShape(n, n);
    var C := LowerFunction(f, globals).value.code;
    var e := Epilogue(Opening(n) + b.code, b.cx.temps);
    if i < |Opening(n)| {
      if i > 0 {
        assert C[i] == Prologue(n, n)[i - 1] && C[i] in Prologue(n, n);
      }
    } else if i >= |Opening(n)| + |b.code| {
      assert C[i] == e[i - |Opening(n)| - |b.code|];
    }
  }

  lemma BodyLeads(C: seq<Instr>, b: LowStmt, i: nat)
    requires b.Lowered? && Closed(b.code, b.cx, {}) && Fits(C, b.cx.table)
    requires i < |b.code| && (forall x :: x in b.code ==> x in C)
    ensures b.code[i].Jump? ==> Leads(C, b.code[i].id)
    ensures b.code[i].Branch? ==> Leads(C, b.code[i].yes) && Leads(C, b.code[i].no)
  {
    hide Leads;
    if b.code[i].Branch? {
      LeadsIn(C, b.code, b.code[i].yes);
      LeadsIn(C, b.code, b.code[i].no);
    } else if b.code[i].Jump? {
      var id := b.code[i].id;
      if Label(id) in b.code {
        LeadsIn(C, b.code, id);
      } else {
        FindLeads(C, id);
      }
    }
  }

  lemma FindLeads(C: seq<Instr>, id: nat)
    ensures Leads(C, id) <==> FindLabel(C, id) < |C|
  {
    var r := FindLabel(C, id);
    if r < |C| {
      assert C[r] == Label(id);
    }
  }

  // ----- runs -----

  /** Every activation is inside the code of a sealed function; all but the innermost rest on
      calls. */
  ghost predicate Inside(stack: Stack) {
    match stack
    case Bottom => true
    case Push(act, rest) =>
      && Sealed(act.fn.code) && act.pc < |act.fn.code|
      && (rest.Push? ==> rest.act.pc < |rest.act.fn.code| && rest.act.fn.code[rest.act.pc].Call?)
      && Inside(rest)
  }

  ghost predicate Proper(s: State) {
    match s
    case Running(stack, _, _) => stack.Push? && Inside(stack)
    case Halted(_, _, _) => true
    case Faulted(why, _) => why != OffTheEnd && why != NoSuchLabel && why != Malformed
  }

  ghost predicate AllSealed(m: Machine) {
    forall i :: 0 <= i < |m.fns| ==> Sealed(m.fns[i].code)
  }

  lemma GoToProper(s: State, id: nat)
    requires s.Running? && Proper(s) && Leads(s.stack.act.fn.code, id)
    ensures Proper(GoTo(s, id))
  {
    hide Leads, Sealed;
    FindLeads(s.stack.act.fn.code, id);
  }

  lemma NotLast(s: State)
    requires s.Running? && Proper(s)
    requires !s.stack.act.fn.code[s.stack.act.pc].Return?
    ensures s.stack.act.pc + 1 < |s.stack.act.fn.code|
  {
    hide Unique, Leads;
  }

  lemma JumpLeads(s: State)
    requires s.Running? && Proper(s)
    ensures
      var x := s.stack.act.fn.code[s.stack.act.pc];
      && (x.Jump? ==> Leads(s.stack.act.fn.code, x.id))
      && (x.Branch? ==> Leads(s.stack.act.fn.code, x.yes) && Leads(s.stack.act.fn.code, x.no))
  {
    hide Unique, Leads;
  }

  lemma ResumeProper(stack: Stack, v: Word, mem: Memory, tr: seq<Event>)
    requires Inside(stack)
    requires stack.Push? ==> stack.act.fn.code[stack.act.pc].Call?
    ensures Proper(Resume(stack, v, mem, tr))
  {
    hide Sealed;
    if stack.Push? {
      NotLast(Running(stack, mem, tr));
    }
  }

  lemma CallProper(m: Machine, s: State, name: string, args: seq<Word>, dest: nat)
    requires AllSealed(m) && s.Running? && Proper(s)
    requires s.stack.act.fn.code[s.stack.act.pc].Call?
    ensures Proper(StepCall(m, s, name, args, dest))
  {
    hide Unique, Leads;
    NotLast(s);
  }

  /** One step stays inside the code. */
  lemma StepProper(m: Machine, s: State)
    requires AllSealed(m) && Proper(s)
    ensures Proper(Step(m, s))
  {
    hide Sealed, Leads, StepCall, Resume, GoTo, FindLabel, Allocs, CellSet, Apply, AllSealed;
    if s.Running? {
      var x := s.stack.act.fn.code[s.stack.act.pc];
      JumpLeads(s);
      if x.Call? && AllSet(s.stack.act.temps, x.args) {
        CallProper(m, s, x.name, Values(s.stack.act.temps, x.args), x.dest);
      } else if x.Jump? {
        GoToProper(s, x.id);
      } else if x.Branch? {
        GoToProper(s, x.yes);
        GoToProper(s, x.no);
      } else if x.Return? {
        if x.value in s.stack.act.temps {
          ResumeProper(s.stack.rest, s.stack.act.temps[x.value],
                       Free(s.mem, CellSet(m.w, s.stack.act.fn.name, s.stack.act.base, Allocs(s.stack.act.fn.code))),
                       s.trace);
        }
      } else {
        NotLast(s);
      }
    }
  }

  lemma {:induction false} RunProper(m: Machine, s: State, n: nat)
    requires AllSealed(m) && Proper(s)
    ensures Proper(Run(m, s, n))
    decreases n
  {
    hide Proper, Step, AllSealed;
    if n != 0 {
      StepProper(m, s);
      RunProper(m, Step(m, s), n - 1);
    }
  }

  /** No run of a lowered program falls off a function, jumps to a label that is not there, or
      meets an instruction it cannot run. */
  lemma RunsStayInside(p: Program, m: Machine, entry: nat, base: Word, args: seq<Word>, n: nat)
    requires LowerProgram(p) == Some(m.fns) && entry < |m.fns|
    requires forall i :: 0 <= i < |p.fns| ==> Distinct(LabelsIn(p.fns[i].body))
    ensures Proper(Run(m, Boot(p, m, entry, base, args), n))
  {
    hide LowerFunction, Sealed, Allocs, Run, LabelsIn;
    forall i | 0 <= i < |m.fns|
      ensures Sealed(m.fns[i].code)
    {
      FunctionSealed(p.fns[i], p.globals.Keys);
    }
    SealedSome(m.fns[entry].code);
    var s := Boot(p, m, entry, base, args);
    assert s.stack == Push(Act(m.fns[entry], base, 0, ArgTemps(args)), Bottom);
    assert Inside(Bottom);
    RunProper(m, Boot(p, m, entry, base, args), n);
  }

  lemma SealedSome(code: seq<Instr>)
    requires Sealed(code)
    ensures 0 < |code|
  {
  }

  // ----- back to the source -----

  lemma {:induction false} Done(m: Machine, s: State, n: nat)
    requires !s.Running?
    ensures Run(m, s, n) == s
    decreases n
  {
    if n != 0 {
      Done(m, s, n - 1);
    }
  }

  /** Two moments at which a run is over show the same end. */
  lemma SameEnd(m: Machine, s: State, i: nat, j: nat)
    requires !Run(m, s, i).Running? && i <= j
    ensures Run(m, s, j) == Run(m, s, i)
  {
    RunSplit(m, s, i, j - i);
    Done(m, Run(m, s, i), j - i);
  }

  /** The other direction of `LoweringPreservesMeaning`: where the lowered program ends, the
      source ends, in the same way, within as many rounds as the run had steps. */
  lemma EndsComeFromSource(p: Program, m: Machine, entry: nat, base: Word, args: seq<Word>, n: nat)
    requires LowerProgram(p) == Some(m.fns) && entry < |m.fns| && |args| == m.fns[entry].params
    requires forall i :: 0 <= i < |p.fns| ==> Distinct(LabelsIn(p.fns[i].body))
    ensures entry < |p.fns|
    ensures
      var r := S.RunProgram(p, m.w, entry, base, args, n + 1);
      match Run(m, Boot(p, m, entry, base, args), n)
      case Halted(v, mem, tr) => r == S.Ok(v, mem, tr)
      case Faulted(why, tr) => r == S.Fail(why, tr)
      case Running(_, _, _) => true
  {
    hide S.Enter, Run, Entered, S.GlobalMemory, S.RunProgram, LowerProgram, LabelsIn;
    LoweringPreservesMeaning(p, m, entry, base, args, n + 1);
    var s := Boot(p, m, entry, base, args);
    if !Run(m, s, n).Running? {
      match S.RunProgram(p, m.w, entry, base, args, n + 1)
      case Ok(v, mem, tr) =>
        var k: nat :| Run(m, s, k) == Halted(v, mem, tr);
        SameEnds(m, s, n, k);
      case Fail(why, tr) =>
        var k: nat :| Run(m, s, k) == Faulted(why, tr);
        SameEnds(m, s, n, k);
      case Timeout(tr) =>
        var k: nat :| k >= n + 1 && Run(m, s, k).Running?;
        SameEnd(m, s, n, k);
    }
  }

  lemma SameEnds(m: Machine, s: State, i: nat, j: nat)
    requires !Run(m, s, i).Running? && !Run(m, s, j).Running?
    ensures Run(m, s, i) == Run(m, s, j)
  {
    hide Run;
    if i <= j {
      SameEnd(m, s, i, j);
    } else {
      SameEnd(m, s, j, i);
    }
  }
}
