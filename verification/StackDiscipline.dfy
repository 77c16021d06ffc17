/** What the simulation says about the stack, and about runs seen from the processor. */
module StackDiscipline {
  import opened Words
  import opened Ast
  import opened X86
  import opened Codegen
  import opened CodegenOps
  import opened Listings
  import opened Frames
  import opened StepSimulation
  import opened JumpSimulation
  import opened EnterSimulation
  import opened BackEnd
  import opened Compiler
  import L = Lowering
  import S = Source
  import I = Ir

  function Depth(stack: I.Stack): nat {
    match stack
    case Bottom => 0
    case Push(_, rest) => 1 + Depth(rest)
  }

  /** The i-th activation, the innermost first. */
  function Nth(stack: I.Stack, i: nat): I.Act
    requires i < Depth(stack)
  {
    if i == 0 then stack.act else Nth(stack.rest, i - 1)
  }

  /** Frames are nested downwards: the frame of a callee, its saved rbp and its return address lie
      below the frame of every activation that waits for it, and above the end of the stack. */
  lemma {:induction false} FramesNest(fns: seq<I.Fn>, b: Board, stack: I.Stack, M: map<Word, Word>, keys: set<Word>,
                                      i: nat, j: nat)
    requires StackOK(fns, b, stack, M, keys) && i < j < Depth(stack)
    ensures b.lo <= Nth(stack, i).base - FrameSize(Nth(stack, i).fn)
    ensures Nth(stack, i).base + 16 <= Nth(stack, j).base - FrameSize(Nth(stack, j).fn)
    decreases j
  {
    hide ActOK, Linked, CellsOf, InStack, FrameSize;
    StackOf(fns, b, stack.act, stack.rest, M, keys);
    var rest := stack.rest;
    if i > 0 {
      FramesNest(fns, b, rest, M, keys - CellsOf(fns, b, stack.act), i - 1, j - 1);
    } else {
      CallerAbove(fns, b, stack.act, rest, M);
      ActFits(fns, b, stack.act, M);
      if j > 1 {
        FramesNest(fns, b, rest, M, keys - CellsOf(fns, b, stack.act), 0, j - 1);
        FrameHolds(rest.act.fn);
      }
    }
  }

  /** From the first instruction on, after any number of steps of the IR machine, the frames of all
      activations are nested. */
  lemma FramesNestInRuns(fns: seq<I.Fn>, b: Board, c: Cpu, entry: nat, base: Word, args: seq<Word>, mem: I.Memory,
                         n: nat, i: nat, j: nat)
    requires Rigged(fns, b) && Booted(fns, b, c, entry, base, args, mem)
    ensures
      var t := I.Run(MachineOf(fns, b), I.Entered(MachineOf(fns, b), fns[entry], base, args, I.Bottom, mem, []), n);
      t.Running? && i < j < Depth(t.stack) ==>
        && b.lo <= Nth(t.stack, i).base - FrameSize(Nth(t.stack, i).fn)
        && Nth(t.stack, i).base + 16 <= Nth(t.stack, j).base - FrameSize(Nth(t.stack, j).fn)
  {
    hide Rigged, Booted, FrameSize, I.Run, Reaches, Match, I.Entered;
    var m := MachineOf(fns, b);
    assert entry < |fns| by { BootedEntry(fns, b, c, entry, base, args, mem); }
    var s := I.Entered(m, fns[entry], base, args, I.Bottom, mem, []);
    var c1 := BootSim(fns, b, c, entry, base, args, mem);
    RunSim(fns, b, s, c1, n);
    var t := I.Run(m, s, n);
    if t.Running? && i < j < Depth(t.stack) {
      var c2: Cpu :| Reaches(b, On(c1), On(c2), n) && Match(fns, b, t, c2);
      MatchStack(fns, b, t, c2);
      FramesNest(fns, b, t.stack, c2.mem, t.mem.Keys, i, j);
    }
  }

  lemma BootedEntry(fns: seq<I.Fn>, b: Board, c: Cpu, entry: nat, base: Word, args: seq<Word>, mem: I.Memory)
    requires Booted(fns, b, c, entry, base, args, mem)
    ensures entry < |fns|
  {
    hide FrameSize, StackMapped, MemoryOK;
  }

  lemma MatchStack(fns: seq<I.Fn>, b: Board, s: I.State, c: Cpu)
    requires Match(fns, b, s, c)
    ensures s.Running? && StackOK(fns, b, s.stack, c.mem, s.mem.Keys)
  {
    hide FrameSize, StackOK, Place;
  }

  lemma ActFits(fns: seq<I.Fn>, b: Board, act: I.Act, M: map<Word, Word>)
    requires ActOK(fns, b, act, M)
    ensures b.lo <= act.base - FrameSize(act.fn)
  {
    hide FrameSize, Member, TopTemp, Slot;
  }

  /** Whatever their number, the arguments of a call arrive: the value of argument temp i is in
      temp i + 1 of the callee, whose frame is ready below the caller's. */
  lemma ArgumentsArrive(fns: seq<I.Fn>, b: Board, s: I.State, c: Cpu, i: nat) returns (c1: Cpu, base: Word)
    requires Poised(fns, b, s, c) && Instr(s).Call? && I.FindFn(fns, Instr(s).name) >= 0
    requires !I.Step(MachineOf(fns, b), s).Faulted? && i < |Instr(s).args|
    ensures Reaches(b, On(c), On(c1), 1)
    ensures Instr(s).args[i] in s.stack.act.temps
    ensures Slot(base, i + 1) in c1.mem
    ensures c1.mem[Slot(base, i + 1)] == s.stack.act.temps[Instr(s).args[i]]
    ensures
      var j := I.FindFn(fns, Instr(s).name);
      && c1.pc == Place(fns, j, 0)
      && c1.regs.rbp == base && c1.regs.rsp == base - FrameSize(fns[j])
      && base + 16 <= c.regs.rsp && c.regs.rsp == s.stack.act.base - FrameSize(s.stack.act.fn)
  {
    hide TopTemp, FrameSize, I.Step, I.Allocs, Place, Reaches, Rigged, MemoryFits, Match;
    MatchHere(fns, b, s, c);
    base := InsideStep(fns, b, s);
    SimInside(fns, b, s, c);
    var t := I.Step(MachineOf(fns, b), s);
    c1 :| Reaches(b, On(c), On(c1), 1) && Match(fns, b, t, c1);
    var j := I.FindFn(fns, Instr(s).name);
    MatchHere(fns, b, t, c1);
    BaseBelow(fns, b, s, j, base);
    var vs := I.Values(s.stack.act.temps, Instr(s).args);
    assert vs[i] == s.stack.act.temps[Instr(s).args[i]];
    assert i + 1 in t.stack.act.temps;
    assert Slot(base, i + 1) in c1.mem;
  }

  lemma BaseBelow(fns: seq<I.Fn>, b: Board, s: I.State, j: nat, base: Word)
    requires CallEnters(fns, b, s, j, base)
    ensures base + 16 <= s.stack.act.base - FrameSize(s.stack.act.fn)
  {
    hide FrameSize;
  }

  lemma MatchHere(fns: seq<I.Fn>, b: Board, s: I.State, c: Cpu)
    requires Match(fns, b, s, c)
    ensures s.Running? && s.stack.Push? && Member(fns, s.stack.act.fn) && s.stack.act.pc <= |s.stack.act.fn.code|
    ensures c.pc == Place(fns, Index(fns, s.stack.act.fn), s.stack.act.pc)
    ensures c.regs.rbp == s.stack.act.base && c.regs.rsp == s.stack.act.base - FrameSize(s.stack.act.fn)
    ensures forall t: nat :: t in s.stack.act.temps ==>
              Slot(s.stack.act.base, t) in c.mem && c.mem[Slot(s.stack.act.base, t)] == s.stack.act.temps[t]
  {
    hide FrameSize, Place, Slot, TopTemp, Linked, CellsOf, InStack;
  }

  // ----- runs seen from the processor -----

  lemma {:induction false} Rests(b: Board, s: State, n: nat)
    requires !s.On?
    ensures Run(b, s, n) == s
    decreases n
  {
    if n != 0 {
      Rests(b, s, n - 1);
    }
  }

  /** A run has one end. */
  lemma OneEnd(b: Board, s: State, t: State, u: State)
    requires Reaches(b, s, t, 0) && Reaches(b, s, u, 0) && !t.On? && !u.On?
    ensures t == u
  {
    var i: nat :| Run(b, s, i) == t;
    var j: nat :| Run(b, s, j) == u;
    if i <= j {
      RunSplit(b, s, i, j - i);
      Rests(b, t, j - i);
    } else {
      RunSplit(b, s, j, i - j);
      Rests(b, u, i - j);
    }
  }

  /** After its end a run is never on again. */
  lemma NoLater(b: Board, s: State, t: State, i: nat, c: Cpu, j: nat)
    requires Run(b, s, i) == t && !t.On? && Reaches(b, s, On(c), j)
    ensures j < i
  {
    if j >= i {
      var k: nat :| k >= j && Run(b, s, k) == On(c);
      RunSplit(b, s, i, k - i);
      Rests(b, t, k - i);
    }
  }

  /** The processor has stopped with the source's answer. */
  ghost predicate Answers(t: State, r: S.Result) {
    r.Ok? && t.Off? && t.value == r.value && t.trace == r.trace && MemoryOK(r.mem, t.mem)
  }

  /** The other direction of `CompilerCorrect`: when the processor stops or traps, the source has
      an answer or a fault. It stops with the source's answer unless the source has a fault of
      which nothing is promised, and traps only if the source has a fault. */
  lemma StopsComeFromSource(p: Program, fns: seq<I.Fn>, b: Board, c: Cpu, entry: nat, base: Word, args: seq<Word>,
                            n: nat)
    requires Named(p) && L.LowerProgram(p) == Some(fns) && entry < |p.fns|
    requires b.text == Text(fns) && |b.text| < TWO64
    requires Booted(fns, b, c, entry, base, args, S.GlobalMemory(p, WorldOf(fns, b)))
    requires !Run(b, On(c), n).On?
    ensures
      var r := S.RunProgram(p, WorldOf(fns, b), entry, base, args, n);
      && !r.Timeout?
      && (r.Ok? ==> Answers(Run(b, On(c), n), r))
      && (r.Fail? && r.why.NoQuotient? ==> Run(b, On(c), n).Trap? && DivideError(b, c, r.trace))
  {
    hide L.LowerProgram, Text, Listing, S.RunProgram, Run, MemoryOK, Booted, Named, FrameSize, DivideError;
    CompilerCorrect(p, fns, b, c, entry, base, args, n);
    var r := S.RunProgram(p, WorldOf(fns, b), entry, base, args, n);
    var t := Run(b, On(c), n);
    assert Reaches(b, On(c), t, 0);
    match r
    case Ok(v, mem, tr) =>
      var M: map<Word, Word> :| Reaches(b, On(c), Off(v, M, tr), 1) && MemoryOK(mem, M);
      ReachesLess(b, On(c), Off(v, M, tr), 1, 0);
      OneEnd(b, On(c), t, Off(v, M, tr));
    case Timeout(tr) =>
      var c1: Cpu :| Reaches(b, On(c), On(c1), n);
      NoLater(b, On(c), t, n, c1, n);
    case Fail(why, tr) =>
      if why.NoQuotient? {
        DivideErrorTraps(b, c, tr);
        ReachesLess(b, On(c), Trap, 1, 0);
        OneEnd(b, On(c), t, Trap);
      }
  }

  /** A run that traps right after a state traps there and nowhere else. */
  lemma TrapsOnce(b: Board, s: State, c: Cpu, k: nat, c1: Cpu)
    requires Run(b, s, k) == On(c) && Step(b, On(c)) == Trap
    requires Reaches(b, s, On(c1), 0) && Step(b, On(c1)) == Trap
    ensures c1 == c
  {
    hide Step;
    var i: nat :| Run(b, s, i) == On(c1);
    RunOn(b, s, k);
    RunOn(b, s, i);
    if i < k {
      RunSplit(b, s, i + 1, k - i - 1);
      Rests(b, Trap, k - i - 1);
    } else if k < i {
      RunSplit(b, s, k + 1, i - k - 1);
      Rests(b, Trap, i - k - 1);
    }
  }

  lemma RunOn(b: Board, s: State, k: nat)
    ensures Run(b, s, k + 1) == Step(b, Run(b, s, k))
  {
    hide Step;
    RunSplit(b, s, k, 1);
    assert Run(b, Step(b, Run(b, s, k)), 0) == Step(b, Run(b, s, k));
  }

  /** The stack pointer is a multiple of 16 at every `call` that the processor executes, as long as
      the source has no fault other than a missing quotient. */
  lemma CallsAligned(p: Program, fns: seq<I.Fn>, b: Board, c: Cpu, entry: nat, base: Word, args: seq<Word>, k: nat)
    requires Named(p) && L.LowerProgram(p) == Some(fns) && entry < |p.fns|
    requires b.text == Text(fns) && |b.text| < TWO64
    requires Booted(fns, b, c, entry, base, args, S.GlobalMemory(p, WorldOf(fns, b)))
    requires var r := S.RunProgram(p, WorldOf(fns, b), entry, base, args, k + 1); r.Fail? ==> r.why.NoQuotient?
    ensures
      var s := Run(b, On(c), k);
      s.On? && s.cpu.pc < |b.text| && b.text[s.cpu.pc].Call? ==> s.cpu.regs.rsp % 16 == 0
  {
    hide L.LowerProgram, Text, Listing, S.RunProgram, Run, MemoryOK, Booted, Named, FrameSize, Divide, Reaches;
    CompilerCorrect(p, fns, b, c, entry, base, args, k + 1);
    var s := Run(b, On(c), k);
    if s.On? && s.cpu.pc < |b.text| && b.text[s.cpu.pc].Call? && s.cpu.regs.rsp % 16 != 0 {
      RunOn(b, On(c), k);
      MisalignedTraps(b, s.cpu);
      ReachesAt(b, On(c), k + 1);
      match S.RunProgram(p, WorldOf(fns, b), entry, base, args, k + 1)
      case Ok(v, mem, tr) =>
        var M: map<Word, Word> :| Reaches(b, On(c), Off(v, M, tr), 1) && MemoryOK(mem, M);
        ReachesLess(b, On(c), Off(v, M, tr), 1, 0);
        OneEnd(b, On(c), Trap, Off(v, M, tr));
      case Timeout(tr) =>
        var c1: Cpu :| Reaches(b, On(c), On(c1), k + 1);
        NoLater(b, On(c), Trap, k + 1, c1, k + 1);
      case Fail(_, tr) =>
        var c1: Cpu :| Reaches(b, On(c), On(c1), 0) && NoQuotientAt(b, c1) && c1.trace == tr;
        TrapsOnce(b, On(c), s.cpu, k, c1);
    }
  }

  lemma MisalignedTraps(b: Board, c: Cpu)
    requires c.pc < |b.text| && b.text[c.pc].Call? && c.regs.rsp % 16 != 0
    ensures Step(b, On(c)) == Trap
  {
  }

  lemma ReachesAt(b: Board, s: State, k: nat)
    ensures Reaches(b, s, Run(b, s, k), 0)
  {
  }
}
