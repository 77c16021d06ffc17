/** Calls inside the program: the return address, the callee's frame and its parameters. */
module EnterSimulation {
  import opened Words
  import opened X86
  import opened Codegen
  import opened CodegenOps
  import opened Listings
  import opened Frames
  import opened StepSimulation
  import opened JumpSimulation
  import opened CallSimulation
  import I = Ir

  // ----- parameters -----

  /** The arguments lie where the callee at `base` looks for them. */
  ghost predicate Incoming(c: Cpu, base: Word, vs: seq<Word>) {
    && c.regs.rbp == base
    && (forall j :: 0 <= j < |vs| && j < 6 ==> c.regs.Get(ArgReg(j)) == vs[j])
    && (forall j :: 6 <= j < |vs| ==>
          WordAt(c.mem, base + 16 + 8 * (j - 6), vs[j]))
  }

  /** The first i parameters are in their temps. */
  ghost predicate Spilled(c: Cpu, base: Word, vs: seq<Word>, i: nat) {
    i <= |vs| && forall t: nat :: 1 <= t <= i ==> Slot(base, t) in c.mem && c.mem[Slot(base, t)] == vs[t - 1]
  }

  /** The temps of a frame of `n` temps are words of the stack. */
  ghost predicate Slots(c: Cpu, base: Word, n: nat) {
    base >= 8 * n && forall t: nat :: 1 <= t <= n ==> Slot(base, t) in c.mem
  }

  lemma SlotOf(base: Word, n: nat, t: nat)
    requires base >= 8 * n && t <= n
    ensures Slot(base, t) == base - 8 * t
  {
    Small(base - 8 * t);
  }

  /** One more parameter. */
  lemma SpillOne(b: Board, c: Cpu, base: Word, vs: seq<Word>, i: nat) returns (c1: Cpu)
    requires 1 <= i <= |vs| && Incoming(c, base, vs) && Slots(c, base, |vs|)
    ensures CodeEnds(b, if i <= 6 then [St(i, ArgReg(i - 1))] else [MovLoad(RAX, RBP, 16 + 8 * (i - 7)), St(i, RAX)],
                     c, c1)
    ensures c1.pc == c.pc + (if i <= 6 then 1 else 2) && c1.mem == c.mem[Slot(base, i) := vs[i - 1]]
    ensures c1.regs == c.regs.(rax := c1.regs.rax) && c1.trace == c.trace
  {
    hide Slot, DoAll, St, ArgReg, Regs.Get;
    if i <= 6 {
      var r := ArgReg(i - 1);
      StDo(b, c, base, i, r);
      c1 := c.(pc := c.pc + 1, mem := c.mem[Slot(base, i) := vs[i - 1]]);
      StStraight(i, r);
      Ends1(b, St(i, r), c, c1);
    } else {
      var d := FromStack(b, c, base, vs, i);
      RaxIs(d.regs);
      StDo(b, d, base, i, RAX);
      c1 := d.(pc := d.pc + 1, mem := d.mem[Slot(base, i) := vs[i - 1]]);
      StStraight(i, RAX);
      Ends1(b, St(i, RAX), d, c1);
      EndsSum(b, [MovLoad(RAX, RBP, 16 + 8 * (i - 7))], [St(i, RAX)], c, d, c1);
      assert [MovLoad(RAX, RBP, 16 + 8 * (i - 7))] + [St(i, RAX)] == [MovLoad(RAX, RBP, 16 + 8 * (i - 7)), St(i, RAX)];
    }
  }

  lemma RaxIs(R: Regs)
    ensures R.Get(RAX) == R.rax
  {
  }

  lemma FromStack(b: Board, c: Cpu, base: Word, vs: seq<Word>, i: nat) returns (d: Cpu)
    requires 6 < i <= |vs| && Incoming(c, base, vs)
    ensures CodeEnds(b, [MovLoad(RAX, RBP, 16 + 8 * (i - 7))], c, d)
    ensures d == c.(pc := c.pc + 1, regs := c.regs.(rax := vs[i - 1]))
  {
    hide DoAll, Wrap, ArgReg;
    IncomingAt(c, base, vs, i - 1);
    Small(base + 16 + 8 * (i - 7));
    d := c.(pc := c.pc + 1, regs := c.regs.(rax := vs[i - 1]));
    Ends1(b, MovLoad(RAX, RBP, 16 + 8 * (i - 7)), c, d);
  }

  lemma IncomingAt(c: Cpu, base: Word, vs: seq<Word>, j: nat)
    requires Incoming(c, base, vs) && 6 <= j < |vs|
    ensures base + 16 + 8 * (j - 6) < TWO64 && base + 16 + 8 * (j - 6) in c.mem
    ensures c.mem[base + 16 + 8 * (j - 6)] == vs[j]
  {
    assert WordAt(c.mem, base + 16 + 8 * (j - 6), vs[j]);
  }

  lemma IncomingSame(c: Cpu, d: Cpu, base: Word, vs: seq<Word>)
    requires Incoming(c, base, vs) && d.regs == c.regs.(rax := d.regs.rax)
    requires d.mem.Keys == c.mem.Keys && forall a :: a in c.mem && a >= base ==> d.mem[a] == c.mem[a]
    ensures Incoming(d, base, vs)
  {
    forall j | 0 <= j < |vs| && j < 6
      ensures d.regs.Get(ArgReg(j)) == vs[j]
    {
      ArgRegOther(j);
      assert c.regs.Get(ArgReg(j)) == vs[j];
    }
    forall j | 6 <= j < |vs|
      ensures WordAt(d.mem, base + 16 + 8 * (j - 6), vs[j])
    {
      assert WordAt(c.mem, base + 16 + 8 * (j - 6), vs[j]);
    }
  }

  /** The spills put parameter i into temp i + 1, wherever it came from. */
  lemma {:induction false} SpillsDo(b: Board, c: Cpu, base: Word, vs: seq<Word>, i: nat) returns (c1: Cpu)
    requires i <= |vs| && Incoming(c, base, vs) && Slots(c, base, |vs|)
    ensures CodeEnds(b, Spills(i), c, c1)
    ensures c1.pc == c.pc + |Spills(i)|
    ensures c1.regs == c.regs.(rax := c1.regs.rax) && c1.trace == c.trace
    ensures c1.mem.Keys == c.mem.Keys
    ensures forall a :: a in c.mem && !(base - 8 * i <= a < base) ==> c1.mem[a] == c.mem[a]
    ensures Spilled(c1, base, vs, i)
  {
    hide Slot, DoAll, St, ArgReg, Incoming, Slots, CodeEnds, Regs.Get;
    if i == 0 {
      c1 := c;
      EndsNone(b, c);
    } else {
      var d := SpillsDo(b, c, base, vs, i - 1);
      IncomingSame(c, d, base, vs);
      SlotsSame(c, d, base, |vs|);
      c1 := SpillOne(b, d, base, vs, i);
      SlotIn(d, base, |vs|, i);
      EndsSum(b, Spills(i - 1),
              if i <= 6 then [St(i, ArgReg(i - 1))] else [MovLoad(RAX, RBP, 16 + 8 * (i - 7)), St(i, RAX)], c, d, c1);
      SpilledMore(d, c1, base, vs, i);
    }
  }

  lemma SlotsSame(c: Cpu, d: Cpu, base: Word, n: nat)
    requires Slots(c, base, n) && d.mem.Keys == c.mem.Keys
    ensures Slots(d, base, n)
  {
    hide Slot;
  }

  lemma SlotIn(c: Cpu, base: Word, n: nat, i: nat)
    requires Slots(c, base, n) && 1 <= i <= n
    ensures Slot(base, i) in c.mem && Slot(base, i) == base - 8 * i && base >= 8 * n
  {
    SlotOf(base, n, i);
  }

  lemma SpilledMore(d: Cpu, c1: Cpu, base: Word, vs: seq<Word>, i: nat)
    requires 1 <= i <= |vs| && Spilled(d, base, vs, i - 1) && base >= 8 * |vs|
    requires c1.mem == d.mem[Slot(base, i) := vs[i - 1]]
    ensures Spilled(c1, base, vs, i)
  {
    hide Slot;
    forall t: nat | 1 <= t <= i - 1
      ensures Slot(base, t) != Slot(base, i)
    {
      SlotOf(base, |vs|, t);
      SlotOf(base, |vs|, i);
    }
  }

  // ----- the callee's frame -----

  /** `push rbp; mov rbp, rsp`. */
  lemma HeadDo(b: Board, c: Cpu, name: string, base: Word) returns (c1: Cpu)
    requires c.regs.rsp == base + 8 && base in c.mem
    ensures CodeEnds(b, [Global(name), Push(RBP), MovReg(RBP, RSP)], c, c1)
    ensures c1.pc == c.pc + 3 && c1.mem == c.mem[base := c.regs.rbp] && c1.trace == c.trace
    ensures c1.regs == c.regs.(rsp := base, rbp := base)
  {
    hide DoAll, Wrap;
    Small(base);
    var d := c.(pc := c.pc + 1);
    Ends1(b, Global(name), c, d);
    var e := d.(pc := d.pc + 1, mem := d.mem[base := c.regs.rbp], regs := d.regs.(rsp := base));
    Ends1(b, Push(RBP), d, e);
    c1 := e.(pc := e.pc + 1, regs := e.regs.(rbp := base));
    Ends1(b, MovReg(RBP, RSP), e, c1);
    EndsSum(b, [Global(name)], [Push(RBP)], c, d, e);
    EndsSum(b, [Global(name)] + [Push(RBP)], [MovReg(RBP, RSP)], c, e, c1);
    assert [Global(name)] + [Push(RBP)] + [MovReg(RBP, RSP)] == [Global(name), Push(RBP), MovReg(RBP, RSP)];
  }

  lemma SubDo(b: Board, c: Cpu, k: nat) returns (c1: Cpu)
    requires c.regs.rsp >= k
    ensures CodeEnds(b, if k != 0 then [SubRsp(k)] else [], c, c1)
    ensures c1.pc == c.pc + (if k != 0 then 1 else 0) && c1.mem == c.mem && c1.trace == c.trace
    ensures c1.regs == c.regs.(rsp := c.regs.rsp - k)
  {
    hide DoAll, Wrap;
    if k != 0 {
      Small(c.regs.rsp - k);
      c1 := c.(pc := c.pc + 1, flags := Unknown, regs := c.regs.(rsp := c.regs.rsp - k));
      Ends1(b, SubRsp(k), c, c1);
    } else {
      c1 := c;
      EndsNone(b, c);
    }
  }

  /** The memory of a fresh activation at `base`, seen from the `call`. */
  ghost predicate FrameOpened(M: map<Word, Word>, c1: Cpu, base: Word, back: Word, saved: Word, vs: seq<Word>) {
    && c1.regs.rbp == base
    && base in M && base + 8 < TWO64 && base + 8 in M
    && c1.mem.Keys == M.Keys
    && (forall a :: a in M && !(base - 8 * |vs| <= a < base + 16) ==> c1.mem[a] == M[a])
    && c1.mem[base] == saved && c1.mem[base + 8] == back
    && Spilled(c1, base, vs, |vs|)
  }

  /** The entry code of a function, from its label to its first instruction. */
  lemma EntryDo(b: Board, c: Cpu, fn: I.Fn, base: Word, M: map<Word, Word>, back: Word, vs: seq<Word>)
      returns (c1: Cpu)
    requires |vs| == fn.params && base >= FrameSize(fn) >= 8 * |vs|
    requires base % 8 == 0 && c.regs.rsp == base + 8 && base + 16 <= TWO64
    requires base in M && base + 8 in M && c.mem == M[base + 8 := back]
    requires Slots(c, base, |vs|) && Incoming(c.(regs := c.regs.(rbp := base)), base, vs)
    ensures CodeEnds(b, Entry(fn), c, c1) && c1.pc == c.pc + |Entry(fn)| && c1.trace == c.trace
    ensures c1.regs.rsp == base - FrameSize(fn)
    ensures FrameOpened(M, c1, base, back, c.regs.rbp, vs)
  {
    hide FrameSize, DoAll, Slot, Incoming, Slots, CodeEnds, Spills, Spilled, Regs.Get;
    var head := [Global(fn.name), Push(RBP), MovReg(RBP, RSP)];
    var sub := if FrameSize(fn) != 0 then [SubRsp(FrameSize(fn))] else [];
    var d := HeadDo(b, c, fn.name, base);
    var e := SubDo(b, d, FrameSize(fn));
    SlotsSame(c, e, base, |vs|);
    IncomingMoved(c.(regs := c.regs.(rbp := base)), e, base, c.regs.rbp, vs);
    c1 := SpillsDo(b, e, base, vs, |vs|);
    EndsSum(b, head, sub, c, d, e);
    EndsSum(b, head + sub, Spills(fn.params), c, e, c1);
    assert Entry(fn) == head + sub + Spills(fn.params);
  }

  lemma IncomingMoved(c: Cpu, e: Cpu, base: Word, v: Word, vs: seq<Word>)
    requires Incoming(c, base, vs) && e.regs == c.regs.(rsp := e.regs.rsp)
    requires base in c.mem && e.mem == c.mem[base := v]
    ensures Incoming(e, base, vs)
  {
    forall j | 0 <= j < |vs| && j < 6
      ensures e.regs.Get(ArgReg(j)) == vs[j]
    {
      ArgRegOther(j);
      assert c.regs.Get(ArgReg(j)) == vs[j];
    }
    forall j | 6 <= j < |vs|
      ensures WordAt(e.mem, base + 16 + 8 * (j - 6), vs[j])
    {
      assert WordAt(c.mem, base + 16 + 8 * (j - 6), vs[j]);
    }
  }

  // ----- entering -----

  /** What a call that the IR machine takes into function j demands of the stack. */
  ghost predicate CallEnters(fns: seq<I.Fn>, b: Board, s: I.State, j: nat, base: Word) {
    && s.Running? && s.stack.Push? && s.stack.act.pc < |s.stack.act.fn.code| && Instr(s).Call?
    && j < |fns| && I.FindFn(fns, Instr(s).name) == j && fns[j].params == |Instr(s).args|
    && base == CallRsp(s.stack.act, |Instr(s).args|) - 16
    && base - FrameSize(fns[j]) >= b.lo
  }

  /** `call` inside the program: the return address is pushed and control is at the callee. */
  lemma CallInside(fns: seq<I.Fn>, b: Board, s: I.State, c: Cpu, j: nat, base: Word) returns (c1: Cpu)
    requires Calling(fns, b, s, c) && CallEnters(fns, b, s, j, base)
    ensures Step(b, On(c)) == On(c1)
    ensures base + 8 in c.mem && base in c.mem && c.pc + 1 < TWO64
    ensures c1 == c.(pc := Start(fns, j), mem := c.mem[base + 8 := c.pc + 1], regs := c.regs.(rsp := base + 8))
  {
    hide TopTemp, FrameSize, MemoryFits, BeforeCall, I.Allocs, Place, StackArgs, Pad, Stacked, InRegs, FindItem, Wrap,
      Entry;
    NewBase(fns, b, s, c, j, base);
    InsideRoom(fns, b, s, c, j, base, base);
    InsideRoom(fns, b, s, c, j, base, base + 8);
    FindGlobal(fns, Instr(s).name);
    EntryAt(fns, j);
    EntryLabels(fns[j]);
    Small(base + 8); Small(c.pc + 1);
    c1 := c.(pc := Start(fns, j), mem := c.mem[base + 8 := c.pc + 1], regs := c.regs.(rsp := base + 8));
  }

  lemma NewBase(fns: seq<I.Fn>, b: Board, s: I.State, c: Cpu, j: nat, base: Word)
    requires Calling(fns, b, s, c) && CallEnters(fns, b, s, j, base)
    ensures base % 16 == 0 && base % 8 == 0 && (base + 8) % 8 == 0
    ensures base + 16 <= s.stack.act.base - FrameSize(s.stack.act.fn)
  {
    hide TopTemp, FrameSize, MemoryFits, BeforeCall, I.Allocs, Place, Stacked, InRegs, Pad, StackArgs;
  }

  /** Every aligned word of the callee's frame is there. */
  lemma InsideRoom(fns: seq<I.Fn>, b: Board, s: I.State, c: Cpu, j: nat, base: Word, a: int)
    requires Calling(fns, b, s, c) && CallEnters(fns, b, s, j, base)
    requires base - FrameSize(fns[j]) <= a <= base + 8 && a % 8 == 0
    ensures 0 <= a < TWO64 && InStack(b, a) && a in c.mem
  {
    hide TopTemp, FrameSize, StackOK, MemoryOK, BeforeCall, I.Allocs, Place, Stacked, InRegs, Pad, StackArgs;
    FrameBounds(fns, b, s, c.mem);
    var w: Word := a;
    assert w % 8 == 0;
  }

  lemma SlotsThere(fns: seq<I.Fn>, b: Board, s: I.State, c: Cpu, j: nat, base: Word)
    requires Calling(fns, b, s, c) && CallEnters(fns, b, s, j, base)
    ensures Slots(c, base, TopTemp(fns[j])) && base >= FrameSize(fns[j]) >= 8 * TopTemp(fns[j])
  {
    hide TopTemp, FrameSize, Calling, Slot, I.Allocs;
    FrameHolds(fns[j]);
    forall t: nat | 1 <= t <= TopTemp(fns[j])
      ensures Slot(base, t) in c.mem
    {
      SlotOf(base, TopTemp(fns[j]), t);
      NewBase(fns, b, s, c, j, base);
      EightTimes(base / 8 - t);
      InsideRoom(fns, b, s, c, j, base, base - 8 * t);
    }
  }

  /** The values the caller passed are the values the callee looks for. */
  lemma PassedIn(fns: seq<I.Fn>, b: Board, s: I.State, c: Cpu, c1: Cpu, j: nat, base: Word)
    requires Calling(fns, b, s, c) && CallEnters(fns, b, s, j, base)
    requires base + 8 in c.mem && c.pc + 1 < TWO64 && c1.mem == c.mem[base + 8 := c.pc + 1]
    requires c1.regs == c.regs.(rsp := base + 8)
    ensures Incoming(c1.(regs := c1.regs.(rbp := base)), base, I.Values(s.stack.act.temps, Instr(s).args))
  {
    hide TopTemp, FrameSize, MemoryFits, BeforeCall, I.Allocs, Place, StackArgs, Pad, Stacked, InRegs, ArgReg, Rigged,
      Regs.Get;
    var T, args := s.stack.act.temps, Instr(s).args;
    var vs := I.Values(T, args);
    var d := c1.(regs := c1.regs.(rbp := base));
    forall i | 0 <= i < |vs| && i < 6
      ensures d.regs.Get(ArgReg(i)) == vs[i]
    {
      InRegsAt(c, T, args, i);
      ArgRegKept(c.regs, base, i);
    }
    forall i | 6 <= i < |vs|
      ensures WordAt(d.mem, base + 16 + 8 * (i - 6), vs[i])
    {
      StackedAt(c, T, args, i);
    }
  }

  lemma ArgRegKept(R: Regs, base: Word, i: nat)
    requires base + 8 < TWO64
    ensures R.(rsp := base + 8).(rbp := base).Get(ArgReg(i)) == R.Get(ArgReg(i))
  {
  }

  /** The callee's cells are the words below its temps. */
  lemma NewCells(fns: seq<I.Fn>, b: Board, s: I.State, c: Cpu, j: nat, base: Word, a: Word)
    requires Calling(fns, b, s, c) && CallEnters(fns, b, s, j, base)
    requires a in I.CellSet(WorldOf(fns, b), fns[j].name, base, I.Allocs(fns[j].code))
    ensures a in c.mem && InStack(b, a) && a < base
  {
    hide TopTemp, FrameSize, Calling, Slot, I.Allocs, Wrap, Pad, StackArgs;
    var k :| 0 <= k < I.Allocs(fns[j].code) && a == WorldOf(fns, b).lay.cell(fns[j].name, base, k);
    var t := TopTemp(fns[j]) + k + 1;
    assert TopOf(fns, fns[j].name) == TopTemp(fns[j]);
    FrameHolds(fns[j]);
    Small(base - 8 * t);
    NewBase(fns, b, s, c, j, base);
    EightTimes(base / 8 - t);
    InsideRoom(fns, b, s, c, j, base, base - 8 * t);
  }

  function Mine(fns: seq<I.Fn>, b: Board, j: nat, base: Word): set<Word>
    requires j < |fns|
  {
    I.CellSet(WorldOf(fns, b), fns[j].name, base, I.Allocs(fns[j].code))
  }

  /** The callee's frame holds its arguments. */
  lemma NewAct(fns: seq<I.Fn>, b: Board, s: I.State, c: Cpu, c1: Cpu, j: nat, base: Word, vs: seq<Word>)
    requires Calling(fns, b, s, c) && CallEnters(fns, b, s, j, base) && |vs| == fns[j].params
    requires c.pc + 1 < TWO64 && FrameOpened(c.mem, c1, base, c.pc + 1, s.stack.act.base, vs)
    ensures ActOK(fns, b, I.Act(fns[j], base, 0, I.ArgTemps(vs)), c1.mem)
  {
    hide TopTemp, FrameSize, BeforeCall, I.Allocs, Place, Stacked, InRegs, Pad, StackArgs, Slot, CallRsp, MemoryFits;
    NewBase(fns, b, s, c, j, base);
    FrameBounds(fns, b, s, c.mem);
    ParamsInFrame(fns[j]);
  }

  lemma ParamsInFrame(fn: I.Fn)
    ensures fn.params <= TopTemp(fn)
  {
  }

  /** The callee's frame points back to its caller. */
  lemma NewLink(fns: seq<I.Fn>, b: Board, s: I.State, c: Cpu, c1: Cpu, j: nat, base: Word, vs: seq<Word>)
    requires Calling(fns, b, s, c) && CallEnters(fns, b, s, j, base)
    requires c.pc + 1 < TWO64 && FrameOpened(c.mem, c1, base, c.pc + 1, s.stack.act.base, vs)
    ensures Linked(fns, b, I.Act(fns[j], base, 0, I.ArgTemps(vs)), s.stack, c1.mem)
  {
    hide TopTemp, FrameSize, BeforeCall, I.Allocs, Place, Stacked, InRegs, Pad, StackArgs, Slot, MemoryFits, Spilled,
      Wrap;
    Small(base + 8);
  }

  lemma NewUnder(fns: seq<I.Fn>, b: Board, s: I.State, c: Cpu, c1: Cpu, j: nat, base: Word, vs: seq<Word>)
    requires Calling(fns, b, s, c) && CallEnters(fns, b, s, j, base) && |vs| == fns[j].params
    requires c.pc + 1 < TWO64 && FrameOpened(c.mem, c1, base, c.pc + 1, s.stack.act.base, vs)
    ensures OnlyBelow(b, c.mem, c1.mem, s.stack.act.base - FrameSize(s.stack.act.fn))
  {
    hide TopTemp, FrameSize, BeforeCall, I.Allocs, Place, Stacked, InRegs, Pad, StackArgs, Slot, MemoryFits, Spilled,
      CallRsp;
    NewBase(fns, b, s, c, j, base);
    ParamsInFrame(fns[j]);
    FrameHolds(fns[j]);
  }

  /** None of the callee's cells is an address of the program yet. */
  lemma MineFresh(fns: seq<I.Fn>, b: Board, s: I.State, c: Cpu, j: nat, base: Word, a: Word)
    requires Calling(fns, b, s, c) && CallEnters(fns, b, s, j, base) && a in Mine(fns, b, j, base)
    ensures a !in s.mem && a in c.mem
  {
    hide TopTemp, FrameSize, BeforeCall, I.Allocs, Place, Stacked, InRegs, Pad, StackArgs, MemoryFits, CallRsp,
      I.CellSet;
    NewCells(fns, b, s, c, j, base, a);
    NewBase(fns, b, s, c, j, base);
    if a in s.mem {
      KeysAbove(fns, b, s, c.mem, a);
    }
  }

  lemma KeysOf(mem: I.Memory, cells: set<Word>)
    ensures I.Allocate(mem, cells).Keys == mem.Keys + cells
    ensures cells !! mem.Keys ==> I.Allocate(mem, cells).Keys - cells == mem.Keys
    ensures forall a :: a in I.Allocate(mem, cells) ==>
              I.Allocate(mem, cells)[a] == if a in cells then I.Undef else mem[a]
  {
  }

  /** The stack with the callee's frame on it is in order. */
  lemma EnterFits(fns: seq<I.Fn>, b: Board, s: I.State, c: Cpu, c1: Cpu, j: nat, base: Word, vs: seq<Word>)
    requires s.Running? && s.stack.Push? && j < |fns| && |vs| == fns[j].params
    requires Calling(fns, b, s, c) && CallEnters(fns, b, s, j, base)
    requires c.pc + 1 < TWO64 && FrameOpened(c.mem, c1, base, c.pc + 1, s.stack.act.base, vs)
    ensures MemoryFits(fns, b, I.Entered(MachineOf(fns, b), fns[j], base, vs, s.stack, s.mem, s.trace), c1.mem)
  {
    hide TopTemp, FrameSize, BeforeCall, I.Allocs, Place, Stacked, InRegs, Pad, StackArgs, CallRsp, I.CellSet,
      FrameOpened,
         CallEnters, Linked, ActOK, Slot, StackOK, I.Allocate, InStack, Calling, OnlyBelow;
    var mine := Mine(fns, b, j, base);
    var act := I.Act(fns[j], base, 0, I.ArgTemps(vs));
    NewAct(fns, b, s, c, c1, j, base, vs);
    NewLink(fns, b, s, c, c1, j, base, vs);
    NewUnder(fns, b, s, c, c1, j, base, vs);
    FitsStill(fns, b, s, c, c1);
    forall a | a in mine
      ensures a !in s.mem && a in c1.mem
    {
      MineFresh(fns, b, s, c, j, base, a);
      NewDomain(c.mem, c1, base, c.pc + 1, s.stack.act.base, vs);
    }
    KeysOf(s.mem, mine);
    assert CellsOf(fns, b, act) == mine;
    forall a | a in s.mem
      ensures !InStack(b, a) || a >= base + 16
    {
      OldKeysHigh(fns, b, s, c, j, base, a);
    }
    var keys := I.Allocate(s.mem, mine).Keys;
    assert keys - mine == s.mem.Keys;
    StackOf(fns, b, act, s.stack, c1.mem, keys);
  }

  lemma FitsStill(fns: seq<I.Fn>, b: Board, s: I.State, c: Cpu, c1: Cpu)
    requires Calling(fns, b, s, c)
    requires OnlyBelow(b, c.mem, c1.mem, s.stack.act.base - FrameSize(s.stack.act.fn))
    ensures MemoryFits(fns, b, I.Running(s.stack, s.mem, s.trace), c1.mem)
  {
    hide FrameSize, MemoryFits, OnlyBelow, Stacked, InRegs, Place, BeforeCall, CallRsp;
    FitsUnder(fns, b, s, c.mem, c1.mem, s.trace);
  }

  lemma NewDomain(M: map<Word, Word>, c1: Cpu, base: Word, back: Word, saved: Word, vs: seq<Word>)
    requires FrameOpened(M, c1, base, back, saved, vs)
    ensures c1.mem.Keys == M.Keys
  {
    hide Spilled;
  }

  lemma OldKeysHigh(fns: seq<I.Fn>, b: Board, s: I.State, c: Cpu, j: nat, base: Word, a: Word)
    requires Calling(fns, b, s, c) && CallEnters(fns, b, s, j, base) && a in s.mem
    ensures !InStack(b, a) || a >= base + 16
  {
    hide TopTemp, FrameSize, BeforeCall, I.Allocs, Place, Stacked, InRegs, Pad, StackArgs, MemoryFits, CallRsp;
    NewBase(fns, b, s, c, j, base);
    if InStack(b, a) {
      KeysAbove(fns, b, s, c.mem, a);
    }
  }

  /** From the `call` to the first instruction of the callee. */
  lemma EnterProgram(fns: seq<I.Fn>, b: Board, s: I.State, c: Cpu, j: nat, base: Word) returns (c2: Cpu)
    requires Calling(fns, b, s, c) && CallEnters(fns, b, s, j, base)
    ensures Reaches(b, On(c), On(c2), 1)
    ensures Match(fns, b, I.Entered(MachineOf(fns, b), fns[j], base, I.Values(s.stack.act.temps, Instr(s).args),
                                    s.stack, s.mem, s.trace), c2)
  {
    hide TopTemp, FrameSize, BeforeCall, I.Allocs, Stacked, InRegs, Pad, StackArgs, CallRsp, I.CellSet, FrameOpened,
         Slot, Entry, Step, Reaches, MemoryFits, Slots, Incoming, TextAt, I.Allocate, Listing, CodeEnds;
    var vs := I.Values(s.stack.act.temps, Instr(s).args);
    var fn := fns[j];
    var c1 := CallInside(fns, b, s, c, j, base);
    NewBase(fns, b, s, c, j, base);
    ParamsInFrame(fn);
    SlotsThere(fns, b, s, c, j, base);
    FewerSlots(c, c1, base, TopTemp(fn), |vs|);
    PassedIn(fns, b, s, c, c1, j, base);
    c2 := EntryDo(b, c1, fn, base, c.mem, c.pc + 1, vs);
    EntryAt(fns, j);
    RunEnds(b, Entry(fn), c1, c2);
    ReachesStep(b, On(c));
    ReachesTrans(b, On(c), On(c1), On(c2), 1, 0);
    EnterFits(fns, b, s, c, c2, j, base, vs);
    OpenedRbp(c.mem, c2, base, c.pc + 1, s.stack.act.base, vs);
  }

  lemma OpenedRbp(M: map<Word, Word>, c1: Cpu, base: Word, back: Word, saved: Word, vs: seq<Word>)
    requires FrameOpened(M, c1, base, back, saved, vs)
    ensures c1.regs.rbp == base
  {
    hide Spilled;
  }

  lemma FewerSlots(c: Cpu, c1: Cpu, base: Word, n: nat, k: nat)
    requires Slots(c, base, n) && k <= n && c1.mem.Keys == c.mem.Keys
    ensures Slots(c1, base, k)
  {
    hide Slot;
  }

  /** What the IR machine's own step says about the call. */
  lemma InsideStep(fns: seq<I.Fn>, b: Board, s: I.State) returns (base: Word)
    requires s.Running? && s.stack.Push? && s.stack.act.pc < |s.stack.act.fn.code|
    requires Instr(s).Call? && I.FindFn(fns, Instr(s).name) >= 0 && Member(fns, s.stack.act.fn)
    requires !I.Step(MachineOf(fns, b), s).Faulted?
    ensures I.AllSet(s.stack.act.temps, Instr(s).args)
    ensures CallEnters(fns, b, s, I.FindFn(fns, Instr(s).name), base)
    ensures I.Step(MachineOf(fns, b), s)
            == I.Entered(MachineOf(fns, b), fns[I.FindFn(fns, Instr(s).name)], base,
                         I.Values(s.stack.act.temps, Instr(s).args), s.stack, s.mem, s.trace)
  {
    hide FrameSize, StackArgs, Pad, I.Entered, I.Values;
    var act, i := s.stack.act, Instr(s);
    base := EnterAt(fns, b.lo, act.fn.name, act.base, i.name, |i.args|).value;
    assert FrameOf(fns, act.fn.name) == FrameSize(act.fn);
  }

  /** Calls of functions that the program defines. */
  lemma SimInside(fns: seq<I.Fn>, b: Board, s: I.State, c: Cpu)
    requires Poised(fns, b, s, c) && Instr(s).Call? && I.FindFn(fns, Instr(s).name) >= 0
    requires !I.Step(MachineOf(fns, b), s).Faulted?
    ensures Simulates(fns, b, c, I.Step(MachineOf(fns, b), s))
  {
    hide TopTemp, FrameSize, Match, BeforeCall, I.Allocs, Place, StackArgs, Pad, Stacked, InRegs, Rigged, Simulates,
         Reaches, Step, I.Step, I.Entered, Calling;
    MatchMember(fns, b, s, c);
    var base := InsideStep(fns, b, s);
    var j := I.FindFn(fns, Instr(s).name);
    var c1 := ReachCall(fns, b, s, c);
    var c2 := EnterProgram(fns, b, s, c1, j, base);
    ReachesTrans(b, On(c), On(c1), On(c2), 0, 1);
    Simulated(fns, b, c, I.Step(MachineOf(fns, b), s), c2);
  }
}
