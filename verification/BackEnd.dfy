/** The back end is correct: the processor follows the IR machine, step by step and run by run. */
module BackEnd {
  import opened Words
  import opened X86
  import opened Codegen
  import opened CodegenOps
  import opened Listings
  import opened Frames
  import opened StepSimulation
  import opened JumpSimulation
  import opened CallSimulation
  import opened EnterSimulation
  import I = Ir

  /** One step of the IR machine that stays in the program. */
  lemma StepSim(fns: seq<I.Fn>, b: Board, s: I.State, c: Cpu)
    requires Rigged(fns, b) && Match(fns, b, s, c)
    requires I.Step(MachineOf(fns, b), s).Running?
    ensures Simulates(fns, b, c, I.Step(MachineOf(fns, b), s))
  {
    hide Match, Rigged, Simulates, TopTemp, FrameSize;
    match Instr(s)
    case Label(_) => SimLabel(fns, b, s, c);
    case Const(_, _) => SimConst(fns, b, s, c);
    case Data(_, _) => SimConst(fns, b, s, c);
    case GlobalAddr(_, _) => SimConst(fns, b, s, c);
    case Alloc(_) => SimAlloc(fns, b, s, c);
    case Address(_, _) => SimUnary(fns, b, s, c);
    case Neg(_, _) => SimUnary(fns, b, s, c);
    case Load(_, _) => SimLoad(fns, b, s, c);
    case Store(_, _) => SimStore(fns, b, s, c);
    case GlobalLoad(_, _) => SimGlobalLoad(fns, b, s, c);
    case GlobalStore(_, _) => SimGlobalStore(fns, b, s, c);
    case Bin(_, _, _, _) => SimBin(fns, b, s, c);
    case Jump(_) => SimJump(fns, b, s, c);
    case Branch(_, _, _) => SimBranch(fns, b, s, c);
    case Call(_, name, _) =>
      if I.FindFn(fns, name) < 0 {
        SimOutside(fns, b, s, c);
      } else {
        SimInside(fns, b, s, c);
      }
    case Return(_) => SimReturn(fns, b, s, c);
  }

  /** The step that ends the run. */
  lemma HaltSim(fns: seq<I.Fn>, b: Board, s: I.State, c: Cpu)
    requires Rigged(fns, b) && Match(fns, b, s, c)
    requires I.Step(MachineOf(fns, b), s).Halted?
    ensures var t := I.Step(MachineOf(fns, b), s); StopsWith(b, c, t.value, t.mem, t.trace)
  {
    hide Rigged, StopsWith, TopTemp, FrameSize, MemoryFits, I.Step, Place;
    HaltIs(MachineOf(fns, b), s);
    SimHalt(fns, b, s, c);
  }

  lemma HaltIs(m: I.Machine, s: I.State)
    requires s.Running? && I.Step(m, s).Halted?
    ensures s.stack.Push? && s.stack.act.pc < |s.stack.act.fn.code| && Instr(s).Return?
    ensures Instr(s).value in s.stack.act.temps && s.stack.rest.Bottom?
  {
    hide I.Allocs, I.CellSet, I.FindFn, I.FindLabel, Apply, I.Values, I.Allocate, I.Free;
  }

  lemma TrapIs(m: I.Machine, s: I.State)
    requires s.Running? && I.Step(m, s).Faulted? && I.Step(m, s).why.NoQuotient?
    ensures s.stack.Push? && s.stack.act.pc < |s.stack.act.fn.code| && Instr(s).Bin?
    ensures I.Step(m, s) == I.Faulted(I.NoQuotient, s.trace)
  {
    hide I.Allocs, I.CellSet, I.FindFn, I.FindLabel, Apply, I.Values, I.Allocate, I.Free;
  }

  /** Division without a quotient is a processor exception. */
  lemma TrapSim(fns: seq<I.Fn>, b: Board, s: I.State, c: Cpu)
    requires Rigged(fns, b) && Match(fns, b, s, c)
    requires I.Step(MachineOf(fns, b), s).Faulted? && I.Step(MachineOf(fns, b), s).why.NoQuotient?
    ensures DivideError(b, c, I.Step(MachineOf(fns, b), s).trace)
  {
    hide Rigged, DivideError, TopTemp, FrameSize, MemoryFits, I.Step, Place;
    TrapIs(MachineOf(fns, b), s);
    TrapBin(fns, b, s, c);
  }

  // ----- runs -----

  /** What the processor does from `c` when the IR machine gets to `t` in n steps: it matches a
      running `t` after at least n steps, stops with the value, memory and trace of a halted
      one, and where a quotient does not exist raises the exception after the same calls. */
  ghost predicate Tracks(fns: seq<I.Fn>, b: Board, c: Cpu, t: I.State, n: nat) {
    match t
    case Running(_, _, _) => exists c1: Cpu :: Reaches(b, On(c), On(c1), n) && Match(fns, b, t, c1)
    case Halted(v, mem, tr) => StopsWith(b, c, v, mem, tr)
    case Faulted(why, tr) => why.NoQuotient? ==> DivideError(b, c, tr)
  }

  lemma StopsAfter(b: Board, c: Cpu, c1: Cpu, v: Word, mem: I.Memory, tr: seq<I.Event>)
    requires Reaches(b, On(c), On(c1), 1) && StopsWith(b, c1, v, mem, tr)
    ensures StopsWith(b, c, v, mem, tr)
  {
    hide Reaches, MemoryOK;
    var M: map<Word, Word> :| Reaches(b, On(c1), Off(v, M, tr), 1) && MemoryOK(mem, M);
    ReachesTrans(b, On(c), On(c1), Off(v, M, tr), 1, 1);
    ReachesLess(b, On(c), Off(v, M, tr), 2, 1);
  }

  lemma FollowsAfter(fns: seq<I.Fn>, b: Board, c: Cpu, c1: Cpu, t: I.State, n: nat)
    requires Reaches(b, On(c), On(c1), 1) && Tracks(fns, b, c1, t, n)
    ensures Tracks(fns, b, c, t, n + 1)
  {
    hide Reaches, Match, StopsWith, DivideError;
    match t
    case Running(_, _, _) =>
      var c2: Cpu :| Reaches(b, On(c1), On(c2), n) && Match(fns, b, t, c2);
      ReachesTrans(b, On(c), On(c1), On(c2), 1, n);
    case Halted(v, mem, tr) =>
      StopsAfter(b, c, c1, v, mem, tr);
    case Faulted(why, tr) =>
      if why.NoQuotient? {
        ReachesLess(b, On(c), On(c1), 1, 0);
        DivideErrorAfter(b, c, c1, tr);
      }
  }

  lemma {:induction false} StaysDone(m: I.Machine, s: I.State, n: nat)
    requires !s.Running?
    ensures I.Run(m, s, n) == s
    decreases n
  {
    if n != 0 {
      StaysDone(m, s, n - 1);
    }
  }

  /** Every run of the IR machine, of any length and through any depth of calls, is followed by
      the processor: rbp, rsp, every temp, every cell and the trace agree at every instruction
      boundary. */
  lemma {:induction false} RunSim(fns: seq<I.Fn>, b: Board, s: I.State, c: Cpu, n: nat)
    requires Rigged(fns, b) && Match(fns, b, s, c)
    ensures Tracks(fns, b, c, I.Run(MachineOf(fns, b), s, n), n)
    decreases n
  {
    hide Rigged, Match, I.Step, Reaches, DivideError;
    var m := MachineOf(fns, b);
    if n == 0 {
      MatchRuns(fns, b, s, c);
      ReachesSelf(b, On(c));
    } else {
      var t := I.Step(m, s);
      if t.Running? {
        StepSim(fns, b, s, c);
        var c1: Cpu :| Reaches(b, On(c), On(c1), 1) && Match(fns, b, t, c1);
        RunSim(fns, b, t, c1, n - 1);
        FollowsAfter(fns, b, c, c1, I.Run(m, t, n - 1), n - 1);
      } else {
        StaysDone(m, t, n - 1);
        if t.Halted? {
          HaltSim(fns, b, s, c);
        } else if t.why.NoQuotient? {
          TrapSim(fns, b, s, c);
        }
      }
    }
  }

  lemma MatchRuns(fns: seq<I.Fn>, b: Board, s: I.State, c: Cpu)
    requires Match(fns, b, s, c)
    ensures s.Running?
  {
    hide MemoryFits;
  }

  // ----- the first activation -----

  /** The machine about to run function `entry`: the arguments passed as for a call, and a return
      address that stops the machine. `mem` lies outside the stack. */
  ghost predicate Booted(fns: seq<I.Fn>, b: Board, c: Cpu, entry: nat, base: Word, args: seq<Word>, mem: I.Memory) {
    && |b.text| < TWO64 && entry < |fns| && |args| == fns[entry].params
    && c.pc == Start(fns, entry) && c.trace == []
    && base % 16 == 0 && base + 16 <= b.hi && base - FrameSize(fns[entry]) >= b.lo
    && c.regs.rsp == base + 8 && WordAt(c.mem, base + 8, |b.text|)
    && Incoming(c.(regs := c.regs.(rbp := base)), base, args)
    && StackMapped(b, c.mem) && MemoryOK(mem, c.mem)
    && (forall a :: a in mem ==> !InStack(b, a))
  }

  /** The entry code makes the first activation. */
  lemma BootSim(fns: seq<I.Fn>, b: Board, c: Cpu, entry: nat, base: Word, args: seq<Word>, mem: I.Memory)
      returns (c1: Cpu)
    requires Rigged(fns, b) && Booted(fns, b, c, entry, base, args, mem)
    ensures Reaches(b, On(c), On(c1), 0)
    ensures Match(fns, b, I.Entered(MachineOf(fns, b), fns[entry], base, args, I.Bottom, mem, []), c1)
  {
    hide TopTemp, FrameSize, I.Allocs, Incoming, Slot, Entry, Reaches, FrameOpened, MemoryFits, TextAt, I.Allocate,
      Listing, CodeEnds,
         StackMapped, MemoryOK, InStack, Slots, I.CellSet;
    var fn := fns[entry];
    BootRoom(fns, b, c, entry, base, args, mem);
    c1 := EntryDo(b, c, fn, base, c.mem, |b.text|, args);
    EntryAt(fns, entry);
    RunEnds(b, Entry(fn), c, c1);
    BootFits(fns, b, c, c1, entry, base, args, mem);
    OpenedRbp(c.mem, c1, base, |b.text|, c.regs.rbp, args);
    BootIndex(fns, entry);
  }

  lemma BootIndex(fns: seq<I.Fn>, entry: nat)
    requires DistinctNames(fns) && entry < |fns|
    ensures I.FindFn(fns, fns[entry].name) == entry
  {
    var r := I.FindFn(fns, fns[entry].name);
  }

  /** Every aligned word of the first frame is there. */
  lemma BootWord(fns: seq<I.Fn>, b: Board, c: Cpu, entry: nat, base: Word, args: seq<Word>, mem: I.Memory, a: int)
    requires Rigged(fns, b) && Booted(fns, b, c, entry, base, args, mem)
    requires base - FrameSize(fns[entry]) <= a <= base + 8 && a % 8 == 0
    ensures 0 <= a < TWO64 && a in c.mem && InStack(b, a) && a !in mem
  {
    hide TopTemp, FrameSize, I.Allocs, Incoming, Slot, Rigged, MemoryOK, Listing;
    var w: Word := a;
    assert InStack(b, w) && w % 8 == 0;
  }

  lemma BootRoom(fns: seq<I.Fn>, b: Board, c: Cpu, entry: nat, base: Word, args: seq<Word>, mem: I.Memory)
    requires Rigged(fns, b) && Booted(fns, b, c, entry, base, args, mem)
    ensures base in c.mem && base + 8 in c.mem && c.mem == c.mem[base + 8 := |b.text|]
    ensures base >= FrameSize(fns[entry]) >= 8 * |args|
    ensures Slots(c, base, |args|)
  {
    hide TopTemp, FrameSize, I.Allocs, Incoming, Slot, Rigged, MemoryOK, StackMapped, InStack;
    var fn := fns[entry];
    FrameHolds(fn);
    ParamsInFrame(fn);
    SixteenEight(base);
    BootWord(fns, b, c, entry, base, args, mem, base);
    forall t: nat | 1 <= t <= |args|
      ensures Slot(base, t) in c.mem
    {
      SlotOf(base, |args|, t);
      EightTimes(base / 8 - t);
      BootWord(fns, b, c, entry, base, args, mem, base - 8 * t);
    }
  }

  lemma SixteenEight(x: int)
    requires x % 16 == 0
    ensures x % 8 == 0 && x == 8 * (x / 8)
  {
  }

  /** The cells of the first activation are words of the stack. */
  lemma BootCells(fns: seq<I.Fn>, b: Board, c: Cpu, entry: nat, base: Word, args: seq<Word>, mem: I.Memory, a: Word)
    requires Rigged(fns, b) && Booted(fns, b, c, entry, base, args, mem) && a in Mine(fns, b, entry, base)
    ensures a in c.mem && InStack(b, a) && a !in mem
  {
    hide TopTemp, FrameSize, I.Allocs, Incoming, Slot, MemoryOK, Wrap, StackMapped, InStack, Listing;
    BootIndex(fns, entry);
    var k :| 0 <= k < I.Allocs(fns[entry].code) && a == WorldOf(fns, b).lay.cell(fns[entry].name, base, k);
    var t := TopTemp(fns[entry]) + k + 1;
    assert TopOf(fns, fns[entry].name) == TopTemp(fns[entry]);
    FrameHolds(fns[entry]);
    Small(base - 8 * t);
    SixteenEight(base);
    EightTimes(base / 8 - t);
    BootWord(fns, b, c, entry, base, args, mem, base - 8 * t);
  }

  lemma BootAct(fns: seq<I.Fn>, b: Board, c: Cpu, c1: Cpu, entry: nat, base: Word, args: seq<Word>, mem: I.Memory)
    requires Rigged(fns, b) && Booted(fns, b, c, entry, base, args, mem)
    requires base + 8 in c.mem && FrameOpened(c.mem, c1, base, |b.text|, c.regs.rbp, args)
    ensures ActOK(fns, b, I.Act(fns[entry], base, 0, I.ArgTemps(args)), c1.mem)
    ensures Linked(fns, b, I.Act(fns[entry], base, 0, I.ArgTemps(args)), I.Bottom, c1.mem)
  {
    hide TopTemp, FrameSize, I.Allocs, Incoming, Slot, MemoryOK, Wrap, StackMapped;
    BootIndex(fns, entry);
    ParamsInFrame(fns[entry]);
    Small(base + 8);
  }

  lemma BootUnder(fns: seq<I.Fn>, b: Board, c: Cpu, c1: Cpu, entry: nat, base: Word, args: seq<Word>, mem: I.Memory,
                  a: Word)
    requires Rigged(fns, b) && Booted(fns, b, c, entry, base, args, mem) && a in mem
    requires base + 8 in c.mem && FrameOpened(c.mem, c1, base, |b.text|, c.regs.rbp, args)
    ensures a in c1.mem && c1.mem[a] == c.mem[a]
  {
    hide TopTemp, FrameSize, I.Allocs, Incoming, Slot, Wrap, StackMapped, Rigged, Spilled;
    FrameHolds(fns[entry]);
    ParamsInFrame(fns[entry]);
  }

  lemma BootFits(fns: seq<I.Fn>, b: Board, c: Cpu, c1: Cpu, entry: nat, base: Word, args: seq<Word>, mem: I.Memory)
    requires Rigged(fns, b) && Booted(fns, b, c, entry, base, args, mem)
    requires base + 8 in c.mem && FrameOpened(c.mem, c1, base, |b.text|, c.regs.rbp, args)
    ensures MemoryFits(fns, b, I.Entered(MachineOf(fns, b), fns[entry], base, args, I.Bottom, mem, []), c1.mem)
  {
    hide TopTemp, FrameSize, I.Allocs, Incoming, I.CellSet, FrameOpened, Linked, ActOK, Slot, I.Allocate, InStack,
      Rigged;
    var mine := Mine(fns, b, entry, base);
    var act := I.Act(fns[entry], base, 0, I.ArgTemps(args));
    BootAct(fns, b, c, c1, entry, base, args, mem);
    NewDomain(c.mem, c1, base, |b.text|, c.regs.rbp, args);
    forall a | a in mine
      ensures a !in mem && a in c1.mem
    {
      BootCells(fns, b, c, entry, base, args, mem, a);
    }
    KeysOf(mem, mine);
    assert CellsOf(fns, b, act) == mine;
    var keys := I.Allocate(mem, mine).Keys;
    assert keys - mine == mem.Keys;
    forall a | a in mem
      ensures a in c1.mem && c1.mem[a] == c.mem[a]
    {
      BootUnder(fns, b, c, c1, entry, base, args, mem, a);
    }
    StackOf(fns, b, act, I.Bottom, c1.mem, keys);
  }
}
