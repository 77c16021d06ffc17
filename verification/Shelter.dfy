/** Which temps every run has set by the time it is at an instruction: a temp set at i is still set
    at every place that control can only come to by way of i. This holds of any code. */
module Shelter {
  import opened Words
  import opened Ir
  import opened Codegen
  import opened Numbering

  predicate Aims(x: Instr, id: nat) {
    (x.Jump? && x.id == id) || (x.Branch? && (x.yes == id || x.no == id))
  }

  /** No jump from outside leads to an instruction strictly between i and e. */
  ghost predicate Sheltered(code: seq<Instr>, i: int, e: int) {
    forall j, k :: 0 <= j < |code| && 0 <= k < |code| && code[k].Label? && Aims(code[j], code[k].id) ==>
                     i < k < e ==> i < j < e
  }

  ghost predicate Region(code: seq<Instr>, i: int, pc: int, e: int) {
    0 <= i < |code| && i < pc < e && Sets(code[i]) && Sheltered(code, i, e)
  }

  /** Temp t is set whenever control is at pc. */
  ghost predicate Held(code: seq<Instr>, pc: int, t: nat) {
    exists i, e :: Region(code, i, pc, e) && Dest(code[i]) == t
  }

  // ----- runs -----

  /** Parameters and sheltered temps are set. */
  ghost predicate HasTemps(act: Act) {
    && (forall t: nat :: 1 <= t <= act.fn.params ==> t in act.temps)
    && (forall i, e :: Region(act.fn.code, i, act.pc, e) ==> Dest(act.fn.code[i]) in act.temps)
  }

  ghost predicate AllHave(m: Machine, stack: Stack) {
    match stack
    case Bottom => true
    case Push(act, rest) => act.fn in m.fns && HasTemps(act) && AllHave(m, rest)
  }

  ghost predicate Steady(m: Machine, s: State) {
    s.Running? ==> AllHave(m, s.stack)
  }

  /** To the next instruction, having set what this one sets. */
  lemma HasNext(act: Act, T: map<nat, Word>)
    requires HasTemps(act) && act.pc < |act.fn.code|
    requires forall t :: t in act.temps ==> t in T
    requires Sets(act.fn.code[act.pc]) ==> Dest(act.fn.code[act.pc]) in T
    ensures HasTemps(act.(pc := act.pc + 1, temps := T))
  {
    hide Sets, Dest, Sheltered;
    var code, next := act.fn.code, act.pc + 1;
    forall i, e | Region(code, i, next, e)
      ensures Dest(code[i]) in T
    {
      if i < act.pc {
        assert Region(code, i, act.pc, e);
      }
    }
  }

  lemma HasJump(act: Act, id: nat)
    requires HasTemps(act) && act.pc < |act.fn.code| && Aims(act.fn.code[act.pc], id)
    requires FindLabel(act.fn.code, id) < |act.fn.code|
    ensures HasTemps(act.(pc := FindLabel(act.fn.code, id)))
  {
    hide Sets, Dest;
    var code, k := act.fn.code, FindLabel(act.fn.code, id);
    forall i, e | Region(code, i, k, e)
      ensures Dest(code[i]) in act.temps
    {
      assert code[k].Label? && Aims(code[act.pc], code[k].id);
      assert Region(code, i, act.pc, e);
    }
  }

  lemma GoToSteady(m: Machine, s: State, id: nat)
    requires s.Running? && s.stack.Push? && Steady(m, s)
    requires s.stack.act.pc < |s.stack.act.fn.code| && Aims(s.stack.act.fn.code[s.stack.act.pc], id)
    ensures Steady(m, GoTo(s, id))
  {
    hide Aims, HasTemps;
    if FindLabel(s.stack.act.fn.code, id) < |s.stack.act.fn.code| {
      HasJump(s.stack.act, id);
    }
  }

  lemma SetSteady(m: Machine, s: State, d: nat, v: Word)
    requires s.Running? && s.stack.Push? && Steady(m, s)
    requires s.stack.act.pc < |s.stack.act.fn.code|
    requires Sets(s.stack.act.fn.code[s.stack.act.pc]) ==> Dest(s.stack.act.fn.code[s.stack.act.pc]) == d
    ensures Steady(m, Set(s, d, v))
  {
    hide HasTemps, Sets, Dest;
    HasNext(s.stack.act, s.stack.act.temps[d := v]);
  }

  lemma SkipSteady(m: Machine, s: State, mem: Memory)
    requires s.Running? && s.stack.Push? && Steady(m, s)
    requires s.stack.act.pc < |s.stack.act.fn.code| && !Sets(s.stack.act.fn.code[s.stack.act.pc])
    ensures Steady(m, Skip(s, mem))
  {
    hide HasTemps, Sets, Dest;
    var act := s.stack.act;
    HasNext(act, act.temps);
  }

  lemma EnteredSteady(m: Machine, fn: Fn, base: Word, args: seq<Word>, rest: Stack, mem: Memory, tr: seq<Event>)
    requires fn in m.fns && |args| == fn.params && AllHave(m, rest)
    ensures Steady(m, Entered(m, fn, base, args, rest, mem, tr))
  {
    hide Sets, Dest, Sheltered, ArgTemps;
    var temps := ArgTemps(args);
    assert forall t: nat :: 1 <= t <= fn.params ==> t in temps;
    assert HasTemps(Act(fn, base, 0, temps));
  }

  lemma CallSteady(m: Machine, s: State, name: string, args: seq<Word>, dest: nat)
    requires s.Running? && s.stack.Push? && Steady(m, s) && s.stack.act.pc < |s.stack.act.fn.code|
    requires s.stack.act.fn.code[s.stack.act.pc].Call? && s.stack.act.fn.code[s.stack.act.pc].dest == dest
    ensures Steady(m, StepCall(m, s, name, args, dest))
    ensures StepCall(m, s, name, args, dest).Faulted? ==> StepCall(m, s, name, args, dest).why != Unset
  {
    hide HasTemps, FindFn;
    var act, i := s.stack.act, FindFn(m.fns, name);
    if i < 0 {
      var v := m.w.env.answer(s.trace, name, args);
      SetSteady(m, Running(s.stack, s.mem, s.trace + [Event(name, args, v)]), dest, v);
    } else if |args| == m.fns[i].params && m.w.lay.enter(act.fn.name, act.base, name, |args|).Some? {
      EnteredSteady(m, m.fns[i], m.w.lay.enter(act.fn.name, act.base, name, |args|).value, args, s.stack, s.mem,
                    s.trace);
    }
  }

  lemma ResumeSteady(m: Machine, stack: Stack, v: Word, mem: Memory, tr: seq<Event>)
    requires AllHave(m, stack)
    ensures Steady(m, Resume(stack, v, mem, tr))
    ensures Resume(stack, v, mem, tr).Faulted? ==> Resume(stack, v, mem, tr).why != Unset
  {
    hide HasTemps;
    if stack.Push? && stack.act.pc < |stack.act.fn.code| && stack.act.fn.code[stack.act.pc].Call? {
      SetSteady(m, Running(stack, mem, tr), stack.act.fn.code[stack.act.pc].dest, v);
    }
  }

  lemma StepSteady(m: Machine, s: State)
    requires Steady(m, s)
    ensures Steady(m, Step(m, s))
  {
    hide HasTemps, Set, Skip, GoTo, StepCall, Resume, Apply, Fetch, Allocs, AllHave;
    if s.Running? && s.stack.Push? && s.stack.act.pc < |s.stack.act.fn.code| {
      StepSteadyAt(m, s);
    }
  }

  lemma RestHas(m: Machine, s: State)
    requires s.Running? && s.stack.Push? && Steady(m, s)
    ensures AllHave(m, s.stack.rest)
  {
  }

  lemma StepSteadyAt(m: Machine, s: State)
    requires Steady(m, s) && s.Running? && s.stack.Push? && s.stack.act.pc < |s.stack.act.fn.code|
    ensures Steady(m, Step(m, s))
  {
    hide HasTemps, Set, Skip, GoTo, StepCall, Resume, Apply, Fetch, Allocs, AllHave, Free, CellSet, Values;
    var x := s.stack.act.fn.code[s.stack.act.pc];
    var t := Step(m, s);
    forall d: nat, v: Word | Sets(x) && Dest(x) == d
      ensures Steady(m, Set(s, d, v))
    {
      SetSteady(m, s, d, v);
    }
    forall mem: Memory | !Sets(x)
      ensures Steady(m, Skip(s, mem))
    {
      SkipSteady(m, s, mem);
    }
    if x.Jump? {
      GoToSteady(m, s, x.id);
    } else if x.Branch? {
      GoToSteady(m, s, x.yes);
      GoToSteady(m, s, x.no);
    } else if x.Call? && AllSet(s.stack.act.temps, x.args) {
      CallSteady(m, s, x.name, Values(s.stack.act.temps, x.args), x.dest);
    } else if x.Return? && x.value in s.stack.act.temps {
      RestHas(m, s);
      ResumeSteady(m, s.stack.rest, s.stack.act.temps[x.value],
                   Free(s.mem, CellSet(m.w, s.stack.act.fn.name, s.stack.act.base, Allocs(s.stack.act.fn.code))),
                   s.trace);
    }
  }

  lemma {:induction false} RunSteady(m: Machine, s: State, n: nat)
    requires Steady(m, s)
    ensures Steady(m, Run(m, s, n))
    decreases n
  {
    hide Steady, Step;
    if n != 0 {
      StepSteady(m, s);
      RunSteady(m, Step(m, s), n - 1);
    }
  }

  /** A step that faults for want of a temp is at an instruction that uses one that is not set. */
  lemma UnsetUse(m: Machine, s: State) returns (t: nat)
    requires s.Running? && Step(m, s).Faulted? && Step(m, s).why == Unset && Steady(m, s)
    ensures s.stack.Push? && s.stack.act.pc < |s.stack.act.fn.code|
    ensures t in Uses(s.stack.act.fn.code[s.stack.act.pc]) && t !in s.stack.act.temps
  {
    hide HasTemps, StepCall, Resume, Apply, Allocs, Free, CellSet, Values;
    var act := s.stack.act;
    var x, T := act.fn.code[act.pc], act.temps;
    FetchFault(s.mem);
    if x.Call? && AllSet(T, x.args) {
      CallSteady(m, s, x.name, Values(T, x.args), x.dest);
      assert false;
    } else if x.Return? && x.value in T {
      ResumeSteady(m, s.stack.rest, T[x.value], Free(s.mem, CellSet(m.w, act.fn.name, act.base, Allocs(act.fn.code))),
                   s.trace);
      assert false;
    } else if x.Call? {
      var i :| 0 <= i < |x.args| && x.args[i] !in T;
      t := x.args[i];
    } else {
      t :| t in Uses(x) && t !in T;
    }
  }

  lemma FetchFault(mem: Memory)
    ensures forall a: Word :: Fetch(mem, a).Bad? ==> Fetch(mem, a).why != Unset
  {
  }

  /** The temp is neither a parameter nor set on every way here. */
  lemma UnsetNotHeld(m: Machine, s: State, t: nat)
    requires Steady(m, s) && s.Running? && s.stack.Push? && t !in s.stack.act.temps
    ensures s.stack.act.fn in m.fns
    ensures !(1 <= t <= s.stack.act.fn.params) && !Held(s.stack.act.fn.code, s.stack.act.pc, t)
  {
    hide Region, Dest;
  }
}
