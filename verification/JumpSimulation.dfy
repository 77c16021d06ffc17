/** Labels, jumps, branches and returns on the processor. */
module JumpSimulation {
  import opened Words
  import opened X86
  import opened Codegen
  import opened CodegenOps
  import opened Listings
  import opened Frames
  import opened StepSimulation
  import I = Ir

  lemma AdvanceMatch(fns: seq<I.Fn>, b: Board, s: I.State, c: Cpu, c1: Cpu, p: nat)
    requires Match(fns, b, s, c) && p <= |s.stack.act.fn.code|
    requires c1.pc == Place(fns, Index(fns, s.stack.act.fn), p)
    requires c1.regs.rbp == c.regs.rbp && c1.regs.rsp == c.regs.rsp && c1.mem == c.mem && c1.trace == c.trace
    ensures Match(fns, b, I.Running(I.Push(s.stack.act.(pc := p), s.stack.rest), s.mem, s.trace), c1)
  {
    hide TopTemp, FrameSize, MemoryFits, Place;
    AdvanceFits(fns, b, s, c.mem, p);
  }

  lemma SimLabel(fns: seq<I.Fn>, b: Board, s: I.State, c: Cpu)
    requires Poised(fns, b, s, c) && Instr(s).Label?
    ensures Simulates(fns, b, c, I.Step(MachineOf(fns, b), s))
  {
    hide TopTemp, FrameSize, MemoryFits, Place, Rigged, Simulates, Reaches, I.Allocs;
    MatchSite(fns, b, s, c);
    AtIndex(b.text, c.pc, CodeAt(s.stack.act), 0);
    var c1 := c.(pc := c.pc + 1);
    ReachesStep(b, On(c));
    AdvanceMatch(fns, b, s, c, c1, s.stack.act.pc + 1);
    Simulated(fns, b, c, I.Step(MachineOf(fns, b), s), c1);
  }

  /** A jump inside the function of the innermost activation. */
  lemma GotoMatch(fns: seq<I.Fn>, b: Board, s: I.State, c: Cpu, c1: Cpu, id: nat) returns (c2: Cpu)
    requires Rigged(fns, b) && Match(fns, b, s, c)
    requires I.GoTo(s, id).Running?
    requires c1.regs.rbp == c.regs.rbp && c1.regs.rsp == c.regs.rsp && c1.mem == c.mem && c1.trace == c.trace
    ensures Goto(b, c1, Local(s.stack.act.fn.name, id)) == On(c2)
    ensures Match(fns, b, I.GoTo(s, id), c2)
  {
    hide TopTemp, FrameSize, MemoryFits, Place, MachineOf;
    var fn := s.stack.act.fn;
    var p := I.FindLabel(fn.code, id);
    FindLocal(fns, Index(fns, fn), id);
    c2 := c1.(pc := Place(fns, Index(fns, fn), p));
    AdvanceMatch(fns, b, s, c, c2, p);
  }

  lemma SimJump(fns: seq<I.Fn>, b: Board, s: I.State, c: Cpu)
    requires Poised(fns, b, s, c) && Instr(s).Jump?
    requires !I.Step(MachineOf(fns, b), s).Faulted?
    ensures Simulates(fns, b, c, I.Step(MachineOf(fns, b), s))
  {
    hide TopTemp, FrameSize, Match, Place, Rigged, Simulates, Reaches, I.Allocs, Goto;
    MatchSite(fns, b, s, c);
    AtIndex(b.text, c.pc, CodeAt(s.stack.act), 0);
    var c1 := GotoMatch(fns, b, s, c, c, Instr(s).id);
    ReachesStep(b, On(c));
    Simulated(fns, b, c, I.Step(MachineOf(fns, b), s), c1);
  }

  lemma SimBranch(fns: seq<I.Fn>, b: Board, s: I.State, c: Cpu)
    requires Poised(fns, b, s, c) && Instr(s).Branch?
    requires !I.Step(MachineOf(fns, b), s).Faulted?
    ensures Simulates(fns, b, c, I.Step(MachineOf(fns, b), s))
  {
    hide TopTemp, FrameSize, Match, Place, Rigged, Simulates, Reaches, I.Allocs, Goto, DoAll, Do, Step, TextAt,
         CodeEnds, Ld;
    var t, yes, no, fn := Instr(s).cond, Instr(s).yes, Instr(s).no, s.stack.act.fn;
    var taken := s.stack.act.temps[t] != 0;
    var c2 := BranchTest(fns, b, s, c);
    var c4 := GotoMatch(fns, b, s, c, if taken then c2 else c2.(pc := c2.pc + 1), if taken then yes else no);
    BranchStep(b, c2, fn.name, yes, no);
    if taken {
      Stepped(b, On(c), On(c2), 2);
      ReachesLess(b, On(c), On(c4), 3, 1);
    } else {
      Stepped(b, On(c), On(c2), 2);
      Stepped(b, On(c), On(c2.(pc := c2.pc + 1)), 3);
      ReachesLess(b, On(c), On(c4), 4, 1);
    }
    Simulated(fns, b, c, I.Step(MachineOf(fns, b), s), c4);
  }

  lemma BranchStep(b: Board, c: Cpu, f: string, yes: nat, no: nat)
    requires c.pc + 1 < |b.text| && b.text[c.pc] == Jnz(f, yes) && b.text[c.pc + 1] == Jmp(f, no)
    requires c.flags.Known?
    ensures Step(b, On(c)) == if c.flags.zf then On(c.(pc := c.pc + 1)) else Goto(b, c, Local(f, yes))
    ensures Step(b, On(c.(pc := c.pc + 1))) == Goto(b, c.(pc := c.pc + 1), Local(f, no))
  {
    hide Goto;
  }

  lemma BranchTest(fns: seq<I.Fn>, b: Board, s: I.State, c: Cpu) returns (c2: Cpu)
    requires Poised(fns, b, s, c) && Instr(s).Branch? && Instr(s).cond in s.stack.act.temps
    ensures Reaches(b, On(c), On(c2), 2)
    ensures c2.regs.rbp == c.regs.rbp && c2.regs.rsp == c.regs.rsp && c2.mem == c.mem && c2.trace == c.trace
    ensures c2.flags.Known? && (c2.flags.zf <==> s.stack.act.temps[Instr(s).cond] == 0)
    ensures c2.pc + 1 < |b.text| && b.text[c2.pc] == Jnz(s.stack.act.fn.name, Instr(s).yes)
    ensures b.text[c2.pc + 1] == Jmp(s.stack.act.fn.name, Instr(s).no)
  {
    hide TopTemp, FrameSize, Match, Place, Rigged, Simulates, Reaches, I.Allocs, Goto, I.GoTo, DoAll, Step;
    var t, f := Instr(s).cond, s.stack.act.fn.name;
    MatchSite(fns, b, s, c);
    var c1 := LoadTemp(fns, b, s, c, RAX, t);
    c2 := c1.(pc := c1.pc + 1, flags := Known(c1.regs.rax == 0, c1.regs.rax >= TWO63, false));
    Ends1(b, TestSelf(RAX), c1, c2);
    EndsSum(b, [Ld(RAX, t)], [TestSelf(RAX)], c, c1, c2);
    var pre := [Ld(RAX, t)] + [TestSelf(RAX)];
    var post := [Jnz(f, Instr(s).yes), Jmp(f, Instr(s).no)];
    assert CodeAt(s.stack.act) == pre + post;
    AtSplit(b.text, c.pc, pre, post);
    RunStraight(b, pre, c);
    AtIndex(b.text, c2.pc, post, 0);
    AtIndex(b.text, c2.pc, post, 1);
  }

  // ----- returns -----

  lemma PadEven(n: nat)
    ensures (StackArgs(n) + Pad(n)) % 2 == 0
  {
  }

  /** The machine is behind the `call` that the innermost activation rests on, with the answer
      in rax and the arguments still on the stack. */
  ghost predicate Answered(fns: seq<I.Fn>, b: Board, s: I.State, c: Cpu) {
    && s.Running? && s.stack.Push? && s.stack.act.pc < |s.stack.act.fn.code| && Instr(s).Call?
    && Rigged(fns, b) && MemoryFits(fns, b, s, c.mem) && Member(fns, s.stack.act.fn)
    && var act := s.stack.act;
    && var n := |Instr(s).args|;
    && c.pc == Place(fns, Index(fns, act.fn), act.pc) + |BeforeCall(Instr(s).args)| + 1
    && c.regs.rbp == act.base
    && c.regs.rsp == act.base - FrameSize(act.fn) - 8 * (StackArgs(n) + Pad(n))
    && c.trace == s.trace
  }

  lemma AnsweredSite(fns: seq<I.Fn>, b: Board, s: I.State, c: Cpu)
    requires Answered(fns, b, s, c)
    ensures TextAt(b.text, c.pc, AfterCall(|Instr(s).args|, Instr(s).dest))
    ensures Place(fns, Index(fns, s.stack.act.fn), s.stack.act.pc + 1)
            == c.pc + |AfterCall(|Instr(s).args|, Instr(s).dest)|
    ensures 1 <= Instr(s).dest <= TopTemp(s.stack.act.fn)
  {
    hide TopTemp, FrameSize, StackOK, MemoryOK, StackMapped, BeforeCall, AfterCall, TextAt, MemoryFits;
    var act := s.stack.act;
    InstrAt(fns, Index(fns, act.fn), act.pc);
    var i := Instr(s);
    AtSplit(b.text, Place(fns, Index(fns, act.fn), act.pc), BeforeCall(i.args) + [Item.Call(i.name)],
            AfterCall(|i.args|, i.dest));
    DestInFrame(fns, b, act);
  }

  /** Cleaning up after a call: the answer reaches the destination temp, and rsp is back at the
      end of the caller's frame. */
  lemma Cleanup(fns: seq<I.Fn>, b: Board, s: I.State, c: Cpu)
    requires Answered(fns, b, s, c)
    ensures Simulates(fns, b, c, I.Set(s, Instr(s).dest, c.regs.rax))
  {
    hide TopTemp, FrameSize, MemoryFits, Place, Rigged, Simulates, Reaches, I.Allocs, DoAll, Do, StackArgs, Pad, St,
      Slot,
         BeforeCall;
    var act, i := s.stack.act, Instr(s);
    AnsweredSite(fns, b, s, c);
    SetFits(fns, b, s, c.mem, i.dest, c.regs.rax);
    var k := StackArgs(|i.args|) + Pad(|i.args|);
    var pre: seq<Item> := if k != 0 then [AddRsp(8 * k)] else [];
    var c1 := c;
    if k != 0 {
      c1 := RspBack(fns, b, s, c, k);
    } else {
      EndsNone(b, c);
    }
    StDo(b, c1, act.base, i.dest, RAX);
    var c2 := c1.(pc := c1.pc + 1, mem := c1.mem[Slot(act.base, i.dest) := c.regs.rax]);
    StStraight(i.dest, RAX);
    Ends1(b, St(i.dest, RAX), c1, c2);
    EndsSum(b, pre, [St(i.dest, RAX)], c, c1, c2);
    assert AfterCall(|i.args|, i.dest) == pre + [St(i.dest, RAX)];
    RunStraight(b, pre + [St(i.dest, RAX)], c);
    ReachesLess(b, On(c), On(c2), |pre| + 1, 1);
    Simulated(fns, b, c, I.Set(s, i.dest, c.regs.rax), c2);
  }

  lemma EndsNone(b: Board, c: Cpu)
    ensures CodeEnds(b, [], c, c)
  {
  }

  lemma RspBack(fns: seq<I.Fn>, b: Board, s: I.State, c: Cpu, k: nat) returns (c1: Cpu)
    requires s.Running? && s.stack.Push? && MemoryFits(fns, b, s, c.mem)
    requires c.regs.rsp == s.stack.act.base - FrameSize(s.stack.act.fn) - 8 * k
    ensures CodeEnds(b, [AddRsp(8 * k)], c, c1)
    ensures c1 == c.(pc := c.pc + 1, flags := Unknown,
                     regs := c.regs.(rsp := s.stack.act.base - FrameSize(s.stack.act.fn)))
  {
    hide TopTemp, FrameSize, Wrap, DoAll, Linked, CellsOf, InStack;
    var act := s.stack.act;
    var sp := act.base - FrameSize(act.fn);
    assert 0 <= sp < TWO64;
    Small(sp);
    c1 := c.(pc := c.pc + 1, flags := Unknown, regs := c.regs.(rsp := sp));
    Ends1(b, AddRsp(8 * k), c, c1);
  }

  /** `leave` and `ret`: rbp and rsp are the caller's again. */
  lemma LeaveRet(fns: seq<I.Fn>, b: Board, s: I.State, c: Cpu) returns (c3: Cpu)
    requires Poised(fns, b, s, c) && Instr(s).Return? && Instr(s).value in s.stack.act.temps
    ensures Reaches(b, On(c), On(c3), 3)
    ensures c3.mem == c.mem && c3.trace == c.trace && c3.regs.rax == s.stack.act.temps[Instr(s).value]
    ensures c3.pc == ReturnTo(fns, b, s.stack.rest) && c3.regs.rsp == s.stack.act.base + 16
    ensures s.stack.rest.Push? ==> c3.regs.rbp == s.stack.rest.act.base
  {
    hide TopTemp, FrameSize, Place, Rigged, Reaches, DoAll, Do, Step, ReturnTo, CellsOf, I.Allocs, Ld, Suspended, Slot;
    var act, t := s.stack.act, Instr(s).value;
    MatchSite(fns, b, s, c);
    SetTempPositive(fns, b, s, c, t);
    assert CodeAt(act) == [Ld(RAX, t)] + [Leave, Ret];
    var c1 := LoadTemp(fns, b, s, c, RAX, t);
    AtSplit(b.text, c.pc, [Ld(RAX, t)], [Leave, Ret]);
    RunStraight(b, [Ld(RAX, t)], c);
    AtIndex(b.text, c1.pc, [Leave, Ret], 0);
    AtIndex(b.text, c1.pc, [Leave, Ret], 1);
    Small(act.base + 8); Small(act.base + 16);
    var c2 := LeaveDo(b, c1);
    c3 := RetDo(b, c2);
    Stepped(b, On(c), On(c1), 1);
    Stepped(b, On(c), On(c2), 2);
  }

  lemma SetTempPositive(fns: seq<I.Fn>, b: Board, s: I.State, c: Cpu, t: nat)
    requires Match(fns, b, s, c) && t in s.stack.act.temps
    ensures 1 <= t <= TopTemp(s.stack.act.fn)
  {
    hide TopTemp, FrameSize, Place, Linked, CellsOf, InStack, Slot;
  }

  lemma LeaveDo(b: Board, c: Cpu) returns (c1: Cpu)
    requires c.pc < |b.text| && b.text[c.pc] == Leave && c.regs.rbp in c.mem
    ensures c1 == c.(pc := c.pc + 1, regs := c.regs.(rsp := Wrap(c.regs.rbp + 8), rbp := c.mem[c.regs.rbp]))
    ensures Step(b, On(c)) == On(c1)
  {
    hide Wrap;
    c1 := c.(pc := c.pc + 1, regs := c.regs.(rsp := Wrap(c.regs.rbp + 8), rbp := c.mem[c.regs.rbp]));
  }

  lemma RetDo(b: Board, c: Cpu) returns (c1: Cpu)
    requires c.pc < |b.text| && b.text[c.pc] == Ret && c.regs.rsp in c.mem
    ensures c1 == c.(pc := c.mem[c.regs.rsp], regs := c.regs.(rsp := Wrap(c.regs.rsp + 8)))
    ensures Step(b, On(c)) == On(c1)
  {
    hide Wrap;
    c1 := c.(pc := c.mem[c.regs.rsp], regs := c.regs.(rsp := Wrap(c.regs.rsp + 8)));
  }

  /** Without the cells of the innermost activation, the stack below it is in order. */
  lemma PopFits(fns: seq<I.Fn>, b: Board, s: I.State, M: map<Word, Word>)
    requires MemoryFits(fns, b, s, M) && s.stack.rest.Push?
    ensures MemoryFits(fns, b, I.Running(s.stack.rest, I.Free(s.mem, CellsOf(fns, b, s.stack.act)), s.trace), M)
    ensures Suspended(s.stack.rest.act, s.stack.act.base) && Member(fns, s.stack.rest.act.fn)
  {
    hide FrameSize, CellsOf, InStack, StackOK, Suspended, ReturnTo;
    var act, rest := s.stack.act, s.stack.rest;
    var mine := CellsOf(fns, b, act);
    StackOf(fns, b, act, rest, M, s.mem.Keys);
    assert (s.mem - mine).Keys == s.mem.Keys - mine;
    StackOf(fns, b, rest.act, rest.rest, M, s.mem.Keys - mine);
  }

  /** The processor stops with this value, memory and trace. */
  ghost predicate StopsWith(b: Board, c: Cpu, v: Word, mem: I.Memory, tr: seq<I.Event>) {
    exists M: map<Word, Word> :: Reaches(b, On(c), Off(v, M, tr), 1) && MemoryOK(mem, M)
  }

  lemma SimReturn(fns: seq<I.Fn>, b: Board, s: I.State, c: Cpu)
    requires Poised(fns, b, s, c) && Instr(s).Return?
    requires Instr(s).value in s.stack.act.temps && s.stack.rest.Push?
    ensures Simulates(fns, b, c, I.Step(MachineOf(fns, b), s))
  {
    hide TopTemp, FrameSize, Place, Rigged, Reaches, Step, CellsOf, I.Allocs, Match, MemoryFits, Simulates;
    var c3 := LeaveRet(fns, b, s, c);
    ReturnAnswered(fns, b, s, c, c3);
    var t := I.Running(s.stack.rest, I.Free(s.mem, CellsOf(fns, b, s.stack.act)), s.trace);
    Cleanup(fns, b, t, c3);
    SimulatesAfter(fns, b, c, c3, 3, I.Set(t, Instr(t).dest, c3.regs.rax));
    ReturnStep(fns, b, s);
  }

  lemma SimulatesAfter(fns: seq<I.Fn>, b: Board, c: Cpu, c1: Cpu, n: nat, t: I.State)
    requires Reaches(b, On(c), On(c1), n) && Simulates(fns, b, c1, t)
    ensures Simulates(fns, b, c, t)
  {
    hide Reaches, Match;
    var c2: Cpu :| Reaches(b, On(c1), On(c2), 1) && Match(fns, b, t, c2);
    ReachesTrans(b, On(c), On(c1), On(c2), n, 1);
    ReachesLess(b, On(c), On(c2), n + 1, 1);
  }

  lemma ReturnStep(fns: seq<I.Fn>, b: Board, s: I.State)
    requires s.Running? && s.stack.Push? && s.stack.act.pc < |s.stack.act.fn.code|
    requires Instr(s).Return? && Instr(s).value in s.stack.act.temps
    ensures I.Step(MachineOf(fns, b), s)
            == I.Resume(s.stack.rest, s.stack.act.temps[Instr(s).value],
                        I.Free(s.mem, CellsOf(fns, b, s.stack.act)), s.trace)
  {
    hide I.Resume, I.Free, I.Allocs, I.CellSet;
  }

  lemma ReturnAnswered(fns: seq<I.Fn>, b: Board, s: I.State, c: Cpu, c3: Cpu)
    requires Poised(fns, b, s, c) && s.stack.rest.Push?
    requires c3.mem == c.mem && c3.trace == c.trace && c3.pc == ReturnTo(fns, b, s.stack.rest)
    requires c3.regs.rsp == s.stack.act.base + 16 && c3.regs.rbp == s.stack.rest.act.base
    ensures Answered(fns, b, I.Running(s.stack.rest, I.Free(s.mem, CellsOf(fns, b, s.stack.act)), s.trace), c3)
  {
    hide TopTemp, FrameSize, Place, Rigged, Reaches, Step, CellsOf, I.Allocs, MemoryFits, BeforeCall, StackArgs, Pad;
    PopFits(fns, b, s, c.mem);
  }

  /** The last return stops the processor. */
  lemma SimHalt(fns: seq<I.Fn>, b: Board, s: I.State, c: Cpu)
    requires Poised(fns, b, s, c) && Instr(s).Return?
    requires Instr(s).value in s.stack.act.temps && s.stack.rest.Bottom?
    ensures var t := I.Step(MachineOf(fns, b), s);
            t.Halted? && StopsWith(b, c, t.value, t.mem, t.trace)
  {
    hide TopTemp, FrameSize, Place, Rigged, Reaches, CellsOf, I.Allocs, I.Step, StackOK, StackMapped;
    var c3 := LeaveRet(fns, b, s, c);
    ReturnStep(fns, b, s);
    Stepped(b, On(c), On(c3), 3);
    ReachesLess(b, On(c), Off(c3.regs.rax, c.mem, c.trace), 4, 1);
  }
}
