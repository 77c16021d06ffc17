/** Every step of the IR machine is one or more steps of the processor. */
module StepSimulation {
  import opened Words
  import opened X86
  import opened Codegen
  import opened CodegenOps
  import opened Listings
  import opened Frames
  import I = Ir

  // ----- what a write keeps -----

  /** The slot of a temp is a word of the stack that the program cannot name. */
  lemma SlotAlone(fns: seq<I.Fn>, b: Board, act: I.Act, M: map<Word, Word>, keys: set<Word>, d: nat)
    requires ActOK(fns, b, act, M) && StackMapped(b, M) && 1 <= d <= TopTemp(act.fn)
    requires forall a :: a in keys && a !in CellsOf(fns, b, act) ==> !InStack(b, a) || a >= act.base + 16
    ensures Slot(act.base, d) in M && Slot(act.base, d) !in keys
    ensures InStack(b, Slot(act.base, d)) && Slot(act.base, d) < act.base
  {
    hide TopTemp, FrameSize, CellsOf, Member, Slot;
    SlotIs(fns, b, act, M, d);
    var a := Slot(act.base, d);
    if a in CellsOf(fns, b, act) {
      CellIs(fns, b, act, M, a);
    }
  }

  lemma ActSet(fns: seq<I.Fn>, b: Board, act: I.Act, M: map<Word, Word>, d: nat, v: Word)
    requires ActOK(fns, b, act, M) && act.pc < |act.fn.code| && 1 <= d <= TopTemp(act.fn)
    requires Slot(act.base, d) in M
    ensures ActOK(fns, b, act.(pc := act.pc + 1, temps := act.temps[d := v]), M[Slot(act.base, d) := v])
  {
    hide TopTemp, FrameSize, Member, Slot;
    SlotIs(fns, b, act, M, d);
    forall t: nat | t in act.temps && t != d
      ensures Slot(act.base, t) != Slot(act.base, d)
    {
      SlotIs(fns, b, act, M, t);
    }
  }

  lemma CellsSame(fns: seq<I.Fn>, b: Board, x: I.Act, y: I.Act)
    requires x.fn == y.fn && x.base == y.base
    ensures CellsOf(fns, b, x) == CellsOf(fns, b, y)
  {
    hide I.Allocs, I.CellSet;
  }

  lemma StackOf(fns: seq<I.Fn>, b: Board, act: I.Act, rest: I.Stack, M: map<Word, Word>, keys: set<Word>)
    ensures StackOK(fns, b, I.Push(act, rest), M, keys) <==>
      && ActOK(fns, b, act, M)
      && Linked(fns, b, act, rest, M)
      && CellsOf(fns, b, act) <= keys
      && (forall a :: a in keys && a !in CellsOf(fns, b, act) ==> !InStack(b, a) || a >= act.base + 16)
      && StackOK(fns, b, rest, M, keys - CellsOf(fns, b, act))
  {
    hide ActOK, Linked, CellsOf, InStack;
  }

  lemma LinkSame(fns: seq<I.Fn>, b: Board, x: I.Act, y: I.Act, rest: I.Stack, M: map<Word, Word>)
    requires x.base == y.base && Linked(fns, b, x, rest, M)
    ensures Linked(fns, b, y, rest, M)
  {
    hide ReturnTo, Suspended, Wrap;
  }

  /** Writing the slot of a temp changes that temp and nothing else. */
  lemma SetFits(fns: seq<I.Fn>, b: Board, s: I.State, M: map<Word, Word>, d: nat, v: Word)
    requires MemoryFits(fns, b, s, M) && s.stack.act.pc < |s.stack.act.fn.code|
    requires 1 <= d <= TopTemp(s.stack.act.fn)
    ensures Slot(s.stack.act.base, d) in M
    ensures MemoryFits(fns, b, I.Set(s, d, v), M[Slot(s.stack.act.base, d) := v])
  {
    hide TopTemp, FrameSize, CellsOf, Member, Slot, ReturnTo, Suspended, Wrap, ActOK, Linked, StackOK;
    var act, rest, keys := s.stack.act, s.stack.rest, s.mem.Keys;
    StackOf(fns, b, act, rest, M, keys);
    var a := Slot(act.base, d);
    SlotAlone(fns, b, act, M, keys, d);
    var N := M[a := v];
    assert Same(b, M, N, act.base, keys);
    LinkStable(fns, b, act, rest, M, N, act.base, keys);
    RestStable(fns, b, act, rest, M, N, act.base, keys);
    ActSet(fns, b, act, M, d, v);
    var next := act.(pc := act.pc + 1, temps := act.temps[d := v]);
    CellsSame(fns, b, act, next);
    LinkSame(fns, b, act, next, rest, N);
    StackOf(fns, b, next, rest, N, keys);
  }

  /** Writing a word that the program may name changes that word of its memory and nothing
      else. */
  lemma StoreFits(fns: seq<I.Fn>, b: Board, s: I.State, M: map<Word, Word>, a: Word, v: Word)
    requires MemoryFits(fns, b, s, M) && s.stack.act.pc < |s.stack.act.fn.code| && a in s.mem
    ensures a in M
    ensures MemoryFits(fns, b, I.Skip(s, s.mem[a := I.Is(v)]), M[a := v])
  {
    hide TopTemp, FrameSize, CellsOf, Member, Slot, ReturnTo, Suspended, Wrap, ActOK, Linked, StackOK;
    var act, rest, keys := s.stack.act, s.stack.rest, s.mem.Keys;
    var N := M[a := v];
    assert s.mem[a := I.Is(v)].Keys == keys;
    assert Same(b, M, N, act.base - 8 * TopTemp(act.fn), keys);
    StackStable(fns, b, s.stack, M, N, act.base - 8 * TopTemp(act.fn), keys);
    AdvanceFits(fns, b, I.Running(s.stack, s.mem[a := I.Is(v)], s.trace), N, act.pc + 1);
  }

  /** Moving the program counter changes no memory. */
  lemma AdvanceFits(fns: seq<I.Fn>, b: Board, s: I.State, M: map<Word, Word>, p: nat)
    requires MemoryFits(fns, b, s, M) && p <= |s.stack.act.fn.code|
    ensures MemoryFits(fns, b, I.Running(I.Push(s.stack.act.(pc := p), s.stack.rest), s.mem, s.trace), M)
  {
    hide TopTemp, FrameSize, CellsOf, Member, Slot, ReturnTo, Suspended, Wrap, Linked, StackOK;
    var act, rest, keys := s.stack.act, s.stack.rest, s.mem.Keys;
    var next := act.(pc := p);
    StackOf(fns, b, act, rest, M, keys);
    CellsSame(fns, b, act, next);
    LinkSame(fns, b, act, next, rest, M);
    StackOf(fns, b, next, rest, M, keys);
  }

  // ----- operations -----

  function CodeAt(act: I.Act): seq<Item>
    requires act.pc < |act.fn.code|
  {
    AsmInstr(act.fn.name, act.fn.code[act.pc], I.Allocs(act.fn.code[..act.pc]), TopTemp(act.fn))
  }

  lemma MatchSite(fns: seq<I.Fn>, b: Board, s: I.State, c: Cpu)
    requires Rigged(fns, b) && Match(fns, b, s, c) && s.stack.act.pc < |s.stack.act.fn.code|
    ensures TextAt(b.text, c.pc, CodeAt(s.stack.act))
    ensures Place(fns, Index(fns, s.stack.act.fn), s.stack.act.pc + 1) == c.pc + |CodeAt(s.stack.act)|
    ensures c.pc <= |b.text|
  {
    hide TopTemp, FrameSize, AsmInstr, StackOK, MemoryOK, StackMapped;
    InstrAt(fns, Index(fns, s.stack.act.fn), s.stack.act.pc);
  }

  lemma MatchLocals(fns: seq<I.Fn>, b: Board, s: I.State, c: Cpu)
    requires Match(fns, b, s, c)
    ensures Locals(c, s.stack.act.base, TopTemp(s.stack.act.fn), s.stack.act.temps)
  {
    hide TopTemp, FrameSize, CellsOf, Member, Slot, Linked, StackOK;
    var act := s.stack.act;
    StackOf(fns, b, act, s.stack.rest, c.mem, s.mem.Keys);
    forall t: nat | 1 <= t <= TopTemp(act.fn)
      ensures Slot(act.base, t) in c.mem
    {
      SlotAlone(fns, b, act, c.mem, s.mem.Keys, t);
    }
  }

  lemma DestInFrame(fns: seq<I.Fn>, b: Board, act: I.Act)
    requires Rigged(fns, b) && Member(fns, act.fn) && act.pc < |act.fn.code|
    ensures Dest(act.fn.code[act.pc]) <= TopTemp(act.fn)
    ensures Dest(act.fn.code[act.pc]) == 0 ==>
              var x := act.fn.code[act.pc];
              x.Label? || x.Store? || x.GlobalStore? || x.Jump? || x.Branch? || x.Return?
  {
    hide Dest;
  }

  /** Code that computes `v` in a register and stores it in the slot of `d` sets temp `d`. */
  lemma SetStep(fns: seq<I.Fn>, b: Board, s: I.State, c: Cpu, pre: seq<Item>, c1: Cpu, r: Reg, d: nat, v: Word)
      returns (c2: Cpu)
    requires Rigged(fns, b) && Match(fns, b, s, c) && s.stack.act.pc < |s.stack.act.fn.code|
    requires CodeAt(s.stack.act) == pre + [St(d, r)]
    requires CodeEnds(b, pre, c, c1) && Got(c, c1, |pre|, r, v)
    requires 1 <= d <= TopTemp(s.stack.act.fn)
    ensures Reaches(b, On(c), On(c2), 1)
    ensures Match(fns, b, I.Set(s, d, v), c2)
  {
    hide TopTemp, FrameSize, CodeAt, MemoryFits, Slot, Reaches, Place, DoAll, Do, St;
    var act := s.stack.act;
    SetFits(fns, b, s, c.mem, d, v);
    MatchSite(fns, b, s, c);
    c2 := c1.(pc := c1.pc + 1, mem := c1.mem[Slot(act.base, d) := v]);
    StDo(b, c1, act.base, d, r);
    Ends1(b, St(d, r), c1, c2) by { StStraight(d, r); }
    EndsSum(b, pre, [St(d, r)], c, c1, c2);
    RunStraight(b, pre + [St(d, r)], c);
    ReachesLess(b, On(c), On(c2), |pre| + 1, 1);
  }

  lemma StStraight(d: nat, r: Reg)
    ensures Straight(St(d, r))
  {
  }

  /** Code that stores `v` at an address of the program. */
  lemma StoreStep(fns: seq<I.Fn>, b: Board, s: I.State, c: Cpu, c1: Cpu, a: Word, v: Word)
    requires Rigged(fns, b) && Match(fns, b, s, c) && s.stack.act.pc < |s.stack.act.fn.code|
    requires a in s.mem && CodeEnds(b, CodeAt(s.stack.act), c, c1) && CodeAt(s.stack.act) != []
    requires Wrote(c, c1, |CodeAt(s.stack.act)|, a, v)
    ensures Reaches(b, On(c), On(c1), 1)
    ensures Match(fns, b, I.Skip(s, s.mem[a := I.Is(v)]), c1)
  {
    hide TopTemp, FrameSize, CodeAt, MemoryFits, Slot, Reaches, Place, DoAll, Do;
    StoreFits(fns, b, s, c.mem, a, v);
    MatchSite(fns, b, s, c);
    RunStraight(b, CodeAt(s.stack.act), c);
    ReachesLess(b, On(c), On(c1), |CodeAt(s.stack.act)|, 1);
  }

  /** The machine stands at an instruction of the innermost activation. */
  ghost predicate Poised(fns: seq<I.Fn>, b: Board, s: I.State, c: Cpu) {
    && s.Running? && s.stack.Push? && s.stack.act.pc < |s.stack.act.fn.code|
    && Rigged(fns, b) && Match(fns, b, s, c)
  }

  function Instr(s: I.State): I.Instr
    requires s.Running? && s.stack.Push? && s.stack.act.pc < |s.stack.act.fn.code|
  {
    s.stack.act.fn.code[s.stack.act.pc]
  }

  /** The processor gets from `c` to a state that matches `t`. */
  ghost predicate Simulates(fns: seq<I.Fn>, b: Board, c: Cpu, t: I.State) {
    exists c1: Cpu :: Reaches(b, On(c), On(c1), 1) && Match(fns, b, t, c1)
  }

  lemma Simulated(fns: seq<I.Fn>, b: Board, c: Cpu, t: I.State, c1: Cpu)
    requires Reaches(b, On(c), On(c1), 1) && Match(fns, b, t, c1)
    ensures Simulates(fns, b, c, t)
  {
    hide Reaches, Match;
  }

  lemma OneGot(b: Board, i: Item, c: Cpu, r: Reg, v: Word) returns (c1: Cpu)
    requires Straight(i) && Do(b, i, c).Some? && Do(b, i, c).value.(flags := Unknown)
      == Reg1(c, r, v).(flags := Unknown)
    requires r != RBP && r != RSP
    ensures Do(b, i, c) == Some(c1) && CodeEnds(b, [i], c, c1) && Got(c, c1, 1, r, v)
  {
    hide Do;
    c1 := Do(b, i, c).value;
    assert c1.regs == c.regs.Set(r, v);
    Ends1(b, i, c, c1);
  }

  lemma SimImmediate(fns: seq<I.Fn>, b: Board, s: I.State, c: Cpu, i: Item, v: Word)
    requires Poised(fns, b, s, c) && 1 <= Dest(Instr(s))
    requires CodeAt(s.stack.act) == [i] + [St(Dest(Instr(s)), RAX)]
    requires Straight(i) && Do(b, i, c).Some? && Do(b, i, c).value.(flags := Unknown)
      == Reg1(c, RAX, v).(flags := Unknown)
    ensures Simulates(fns, b, c, I.Set(s, Dest(Instr(s)), v))
  {
    hide TopTemp, FrameSize, MemoryFits, Slot, Reaches, Place, DoAll, Do, CodeAt, Dest, CodeEnds, Got;
    DestInFrame(fns, b, s.stack.act);
    var c1 := OneGot(b, i, c, RAX, v);
    var c2 := SetStep(fns, b, s, c, [i], c1, RAX, Dest(Instr(s)), v);
    Simulated(fns, b, c, I.Set(s, Dest(Instr(s)), v), c2);
  }

  lemma DestPositive(fns: seq<I.Fn>, b: Board, s: I.State, c: Cpu)
    requires Poised(fns, b, s, c)
    requires var i := Instr(s); !i.Label? && !i.Store? && !i.GlobalStore? && !i.Jump? && !i.Branch? && !i.Return?
    ensures 1 <= Dest(Instr(s)) <= TopTemp(s.stack.act.fn)
  {
    hide TopTemp, FrameSize, MemoryFits, Dest, Place;
    DestInFrame(fns, b, s.stack.act);
  }

  /** Constants and addresses. */
  lemma SimConst(fns: seq<I.Fn>, b: Board, s: I.State, c: Cpu)
    requires Poised(fns, b, s, c)
    requires var i := Instr(s); i.Const? || i.Data? || i.GlobalAddr?
    ensures Simulates(fns, b, c, I.Step(MachineOf(fns, b), s))
  {
    hide TopTemp, Match, Rigged, Simulates, I.Allocs;
    DestPositive(fns, b, s, c);
    var i := Instr(s);
    var d := Dest(i);
    match i
    case Const(_, n) =>
      assert CodeAt(s.stack.act) == [MovImm(RAX, n)] + [St(d, RAX)];
      SimImmediate(fns, b, s, c, MovImm(RAX, n), n);
    case Data(_, n) =>
      assert CodeAt(s.stack.act) == [LeaData(RAX, n)] + [St(d, RAX)];
      SimImmediate(fns, b, s, c, LeaData(RAX, n), b.data(n));
    case GlobalAddr(_, g) =>
      assert CodeAt(s.stack.act) == [LeaVar(RAX, g)] + [St(d, RAX)];
      SimImmediate(fns, b, s, c, LeaVar(RAX, g), b.variable(g));
  }

  /** The k-th cell is the k-th word below the temps. */
  lemma SimAlloc(fns: seq<I.Fn>, b: Board, s: I.State, c: Cpu)
    requires Poised(fns, b, s, c) && Instr(s).Alloc?
    ensures Simulates(fns, b, c, I.Step(MachineOf(fns, b), s))
  {
    hide TopTemp, FrameSize, MemoryFits, Rigged, Simulates, I.Allocs, Place, Wrap;
    DestPositive(fns, b, s, c);
    var act := s.stack.act;
    var d := Dest(Instr(s));
    var k := I.Allocs(act.fn.code[..act.pc]);
    var i := Lea(RAX, RBP, -8 * (TopTemp(act.fn) + k + 1));
    assert CodeAt(act) == [i] + [St(d, RAX)];
    assert TopOf(fns, act.fn.name) == TopTemp(act.fn);
    SimImmediate(fns, b, s, c, i, Wrap(act.base - 8 * (TopTemp(act.fn) + k + 1)));
  }

  lemma SimGlobalLoad(fns: seq<I.Fn>, b: Board, s: I.State, c: Cpu)
    requires Poised(fns, b, s, c) && Instr(s).GlobalLoad?
    requires !I.Step(MachineOf(fns, b), s).Faulted?
    ensures Simulates(fns, b, c, I.Step(MachineOf(fns, b), s))
  {
    hide TopTemp, FrameSize, Rigged, Simulates, I.Allocs, Place, Wrap, StackOK, StackMapped;
    DestPositive(fns, b, s, c);
    var i, d := LoadVar(RAX, Instr(s).name), Dest(Instr(s));
    assert CodeAt(s.stack.act) == [i] + [St(d, RAX)];
    SimImmediate(fns, b, s, c, i, s.mem[b.variable(Instr(s).name)].word);
  }

  /** A temp that is set can be loaded. */
  lemma LoadTemp(fns: seq<I.Fn>, b: Board, s: I.State, c: Cpu, r: Reg, t: nat) returns (c1: Cpu)
    requires Match(fns, b, s, c) && t in s.stack.act.temps && r != RBP && r != RSP
    ensures CodeEnds(b, [Ld(r, t)], c, c1) && c1 == Reg1(c, r, s.stack.act.temps[t])
    ensures Got(c, c1, 1, r, s.stack.act.temps[t])
  {
    hide TopTemp, FrameSize, MemoryFits, Place;
    MatchLocals(fns, b, s, c);
    var act := s.stack.act;
    LdDo(b, c, act.base, TopTemp(act.fn), act.temps, r, t);
    c1 := OneGot(b, Ld(r, t), c, r, act.temps[t]);
  }

  /** Copying and negating a temp. */
  lemma SimUnary(fns: seq<I.Fn>, b: Board, s: I.State, c: Cpu)
    requires Poised(fns, b, s, c) && (Instr(s).Address? || Instr(s).Neg?)
    requires !I.Step(MachineOf(fns, b), s).Faulted?
    ensures Simulates(fns, b, c, I.Step(MachineOf(fns, b), s))
  {
    hide TopTemp, FrameSize, Rigged, Simulates, I.Allocs, Match, Wrap, Reaches, DoAll, Do, Negate;
    DestPositive(fns, b, s, c);
    var d, t := Dest(Instr(s)), Instr(s).src;
    var c1 := LoadTemp(fns, b, s, c, RAX, t);
    if Instr(s).Address? {
      assert CodeAt(s.stack.act) == [Ld(RAX, t)] + [St(d, RAX)];
      var c2 := SetStep(fns, b, s, c, [Ld(RAX, t)], c1, RAX, d, c1.regs.rax);
      Simulated(fns, b, c, I.Set(s, d, c1.regs.rax), c2);
    } else {
      var v := Negate(c1.regs.rax);
      NegDo(b, c1);
      var c2 := OneGot(b, NegReg(RAX), c1, RAX, v);
      EndsSum(b, [Ld(RAX, t)], [NegReg(RAX)], c, c1, c2);
      var pre := [Ld(RAX, t)] + [NegReg(RAX)];
      assert CodeAt(s.stack.act) == pre + [St(d, RAX)];
      var c3 := SetStep(fns, b, s, c, pre, c2, RAX, d, v);
      Simulated(fns, b, c, I.Set(s, d, v), c3);
    }
  }

  lemma NegDo(b: Board, c: Cpu)
    ensures Do(b, NegReg(RAX), c) == Some(Reg1(c, RAX, Negate(c.regs.rax)).(flags := Unknown))
  {
    hide Negate;
  }

  lemma SimLoad(fns: seq<I.Fn>, b: Board, s: I.State, c: Cpu)
    requires Poised(fns, b, s, c) && Instr(s).Load?
    requires !I.Step(MachineOf(fns, b), s).Faulted?
    ensures Simulates(fns, b, c, I.Step(MachineOf(fns, b), s))
  {
    hide TopTemp, FrameSize, Rigged, Simulates, I.Allocs, Wrap, Reaches, DoAll, Do, StackOK, StackMapped, Place;
    DestPositive(fns, b, s, c);
    var d, t := Dest(Instr(s)), Instr(s).addr;
    var c1 := LoadTemp(fns, b, s, c, RAX, t);
    var v := s.mem[c1.regs.rax].word;
    IndirectDo(b, c1, RAX, v);
    var c2 := OneGot(b, MovLoad(RAX, RAX, 0), c1, RAX, v);
    EndsSum(b, [Ld(RAX, t)], [MovLoad(RAX, RAX, 0)], c, c1, c2);
    var pre := [Ld(RAX, t)] + [MovLoad(RAX, RAX, 0)];
    assert CodeAt(s.stack.act) == pre + [St(d, RAX)];
    var c3 := SetStep(fns, b, s, c, pre, c2, RAX, d, v);
    Simulated(fns, b, c, I.Set(s, d, v), c3);
  }

  lemma IndirectDo(b: Board, c: Cpu, r: Reg, v: Word)
    requires c.regs.Get(r) in c.mem && c.mem[c.regs.Get(r)] == v
    ensures Do(b, MovLoad(r, r, 0), c) == Some(Reg1(c, r, v))
  {
  }

  lemma StoreDo(b: Board, c: Cpu)
    requires c.regs.rcx in c.mem
    ensures Do(b, MovStore(RCX, 0, RAX), c) ==
            Some(c.(pc := c.pc + 1, mem := c.mem[c.regs.rcx := c.regs.rax]))
  {
  }

  lemma SimStore(fns: seq<I.Fn>, b: Board, s: I.State, c: Cpu)
    requires Poised(fns, b, s, c) && Instr(s).Store?
    requires !I.Step(MachineOf(fns, b), s).Faulted?
    ensures Simulates(fns, b, c, I.Step(MachineOf(fns, b), s))
  {
    hide TopTemp, FrameSize, Rigged, Simulates, I.Allocs, Wrap, Reaches, DoAll, Do, StackOK, StackMapped, Place;
    var t, u, T := Instr(s).addr, Instr(s).src, s.stack.act.temps;
    var c1 := LoadTemp(fns, b, s, c, RAX, u);
    LoadAgain(fns, b, s, c, c1, RCX, t);
    var c2 := Reg1(c1, RCX, T[t]);
    EndsSum(b, [Ld(RAX, u)], [Ld(RCX, t)], c, c1, c2);
    StoreDo(b, c2);
    var c3 := c2.(pc := c2.pc + 1, mem := c2.mem[T[t] := T[u]]);
    Ends1(b, MovStore(RCX, 0, RAX), c2, c3);
    var pre := [Ld(RAX, u)] + [Ld(RCX, t)];
    EndsSum(b, pre, [MovStore(RCX, 0, RAX)], c, c2, c3);
    assert CodeAt(s.stack.act) == pre + [MovStore(RCX, 0, RAX)];
    StoreStep(fns, b, s, c, c3, T[t], T[u]);
    Simulated(fns, b, c, I.Skip(s, s.mem[T[t] := I.Is(T[u])]), c3);
  }

  /** A second temp, while rbp and memory are as they were. */
  lemma LoadAgain(fns: seq<I.Fn>, b: Board, s: I.State, c: Cpu, c1: Cpu, r: Reg, t: nat)
    requires Match(fns, b, s, c) && t in s.stack.act.temps
    requires c1.regs.rbp == c.regs.rbp && c1.mem == c.mem
    ensures CodeEnds(b, [Ld(r, t)], c1, Reg1(c1, r, s.stack.act.temps[t]))
  {
    hide TopTemp, FrameSize, MemoryFits, Place, Slot;
    MatchLocals(fns, b, s, c);
    var act := s.stack.act;
    LdDo(b, c1, act.base, TopTemp(act.fn), act.temps, r, t);
    Ends1(b, Ld(r, t), c1, Reg1(c1, r, act.temps[t]));
  }

  lemma SimGlobalStore(fns: seq<I.Fn>, b: Board, s: I.State, c: Cpu)
    requires Poised(fns, b, s, c) && Instr(s).GlobalStore?
    requires !I.Step(MachineOf(fns, b), s).Faulted?
    ensures Simulates(fns, b, c, I.Step(MachineOf(fns, b), s))
  {
    hide TopTemp, FrameSize, Rigged, Simulates, I.Allocs, Wrap, Reaches, DoAll, StackOK, StackMapped, Place;
    var g, u, T := Instr(s).name, Instr(s).src, s.stack.act.temps;
    var c1 := LoadTemp(fns, b, s, c, RAX, u);
    var a := b.variable(g);
    var c2 := c1.(pc := c1.pc + 1, mem := c1.mem[a := T[u]]);
    Ends1(b, StoreVar(g, RAX), c1, c2);
    EndsSum(b, [Ld(RAX, u)], [StoreVar(g, RAX)], c, c1, c2);
    assert CodeAt(s.stack.act) == [Ld(RAX, u)] + [StoreVar(g, RAX)];
    StoreStep(fns, b, s, c, c2, a, T[u]);
    Simulated(fns, b, c, I.Skip(s, s.mem[a := I.Is(T[u])]), c2);
  }

  /** The fifteen operators. */
  lemma SimBin(fns: seq<I.Fn>, b: Board, s: I.State, c: Cpu)
    requires Poised(fns, b, s, c) && Instr(s).Bin?
    requires !I.Step(MachineOf(fns, b), s).Faulted?
    ensures Simulates(fns, b, c, I.Step(MachineOf(fns, b), s))
  {
    hide TopTemp, FrameSize, Rigged, Simulates, I.Allocs, Match, Wrap, Reaches, DoAll, Do, Apply, Core;
    DestPositive(fns, b, s, c);
    var op, d, t, u := Instr(s).op, Dest(Instr(s)), Instr(s).a, Instr(s).b;
    var c2, pre := BinOperands(fns, b, s, c);
    var c3 := CoreOk(b, op, c2);
    var v := c3.regs.Get(ResultReg(op));
    EndsSum(b, pre, Core(op), c, c2, c3);
    assert CodeAt(s.stack.act) == pre + Core(op) + [St(d, ResultReg(op))];
    var c4 := SetStep(fns, b, s, c, pre + Core(op), c3, ResultReg(op), d, v);
    Simulated(fns, b, c, I.Set(s, d, v), c4);
  }

  lemma BinOperands(fns: seq<I.Fn>, b: Board, s: I.State, c: Cpu) returns (c2: Cpu, pre: seq<Item>)
    requires Poised(fns, b, s, c) && Instr(s).Bin?
    requires Instr(s).a in s.stack.act.temps && Instr(s).b in s.stack.act.temps
    ensures pre == [Ld(RAX, Instr(s).a), Ld(RCX, Instr(s).b)]
    ensures CodeEnds(b, pre, c, c2) && c2.pc == c.pc + 2 && c2.mem == c.mem && c2.trace == c.trace
    ensures c2.regs.rax == s.stack.act.temps[Instr(s).a] && c2.regs.rcx == s.stack.act.temps[Instr(s).b]
    ensures c2.regs.rbp == c.regs.rbp && c2.regs.rsp == c.regs.rsp
  {
    hide TopTemp, FrameSize, Rigged, I.Allocs, Match, Wrap, Reaches, DoAll, Do, Apply, Core;
    var t, u := Instr(s).a, Instr(s).b;
    var c1 := LoadTemp(fns, b, s, c, RAX, t);
    LoadAgain(fns, b, s, c, c1, RCX, u);
    c2 := Reg1(c1, RCX, s.stack.act.temps[u]);
    EndsSum(b, [Ld(RAX, t)], [Ld(RCX, u)], c, c1, c2);
    pre := [Ld(RAX, t)] + [Ld(RCX, u)];
  }

  /** The exception of an `idiv` that has no quotient, after the calls in `tr`. */
  ghost predicate DivideError(b: Board, c: Cpu, tr: seq<I.Event>) {
    exists c1: Cpu :: Reaches(b, On(c), On(c1), 0) && NoQuotientAt(b, c1) && c1.trace == tr
  }

  predicate NoQuotientAt(b: Board, c: Cpu) {
    && c.pc < |b.text| && b.text[c.pc].Idiv? && Divide(c, c.regs.Get(b.text[c.pc].r)).None?
    && Step(b, On(c)) == Trap
  }

  lemma DivideErrorAfter(b: Board, c: Cpu, c1: Cpu, tr: seq<I.Event>)
    requires Reaches(b, On(c), On(c1), 0) && DivideError(b, c1, tr)
    ensures DivideError(b, c, tr)
  {
    hide Reaches, NoQuotientAt;
    var c2: Cpu :| Reaches(b, On(c1), On(c2), 0) && NoQuotientAt(b, c2) && c2.trace == tr;
    ReachesTrans(b, On(c), On(c1), On(c2), 0, 0);
  }

  lemma DivideErrorTraps(b: Board, c: Cpu, tr: seq<I.Event>)
    requires DivideError(b, c, tr)
    ensures Reaches(b, On(c), Trap, 1)
  {
    hide Reaches, Step;
    var c1: Cpu :| Reaches(b, On(c), On(c1), 0) && NoQuotientAt(b, c1) && c1.trace == tr;
    Stepped(b, On(c), On(c1), 0);
  }

  /** The code of a division up to its `idiv`. */
  lemma TrapSite(fns: seq<I.Fn>, b: Board, s: I.State, c: Cpu, pre: seq<Item>)
    requires Poised(fns, b, s, c) && Instr(s).Bin? && Core(Instr(s).op) == [Cqo, Idiv(RCX)]
    requires pre == [Ld(RAX, Instr(s).a), Ld(RCX, Instr(s).b)]
    ensures TextAt(b.text, c.pc, pre + [Cqo]) && c.pc + 3 < |b.text| && b.text[c.pc + 3] == Idiv(RCX)
  {
    hide TopTemp, FrameSize, Rigged, I.Allocs, MemoryFits, Core;
    var op, d := Instr(s).op, Dest(Instr(s));
    MatchSite(fns, b, s, c);
    assert CodeAt(s.stack.act) == (pre + [Cqo]) + [Idiv(RCX), St(d, ResultReg(op))];
    hide *;
    AtSplit(b.text, c.pc, pre + [Cqo], [Idiv(RCX), St(d, ResultReg(op))]);
    AtIndex(b.text, c.pc + 3, [Idiv(RCX), St(d, ResultReg(op))], 0);
  }

  /** Where the quotient does not exist, the `idiv` of the expansion raises the exception. */
  lemma TrapBin(fns: seq<I.Fn>, b: Board, s: I.State, c: Cpu)
    requires Poised(fns, b, s, c) && Instr(s).Bin?
    requires I.Step(MachineOf(fns, b), s) == I.Faulted(I.NoQuotient, s.trace)
    ensures DivideError(b, c, s.trace)
  {
    hide TopTemp, FrameSize, Rigged, I.Allocs, Wrap, Reaches, DoAll, Do, Apply, Core, MemoryFits, Divide;
    var op := Instr(s).op;
    var c2, pre := BinOperands(fns, b, s, c);
    var c3 := CoreOk(b, op, c2);
    EndsSum(b, pre, [Cqo], c, c2, c3);
    TrapSite(fns, b, s, c, pre);
    RunStraight(b, pre + [Cqo], c);
    ReachesLess(b, On(c), On(c3), 3, 0);
    IdivTraps(b, c3);
    MatchTrace(fns, b, s, c);
  }

  lemma IdivTraps(b: Board, c: Cpu)
    requires c.pc < |b.text| && b.text[c.pc] == Idiv(RCX) && Divide(c, c.regs.rcx).None?
    ensures NoQuotientAt(b, c)
  {
    hide Divide;
  }

  lemma MatchTrace(fns: seq<I.Fn>, b: Board, s: I.State, c: Cpu)
    requires Match(fns, b, s, c)
    ensures c.trace == s.trace
  {
    hide MemoryFits, TopTemp, FrameSize, Place;
  }
}
