/** Calls on the processor: arguments in registers and on the stack, the callee's frame, and
    calls that leave the program. */
module CallSimulation {
  import opened Words
  import opened X86
  import opened Codegen
  import opened CodegenOps
  import opened Listings
  import opened Frames
  import opened StepSimulation
  import opened JumpSimulation
  import I = Ir

  // ----- passing arguments -----

  /** Between `c` and `c1` only words of [low, top) changed. */
  ghost predicate Below(c: Cpu, c1: Cpu, low: int, top: int) {
    && c1.mem.Keys == c.mem.Keys
    && (forall a :: a in c.mem && !(low <= a < top) ==> c1.mem[a] == c.mem[a])
    && c1.regs.rbp == c.regs.rbp && c1.trace == c.trace
  }

  /** Writes below the temps do not touch them. */
  lemma LocalsBelow(c: Cpu, c1: Cpu, low: int, top: int, base: Word, maxT: nat, T: map<nat, Word>)
    requires Locals(c, base, maxT, T) && Below(c, c1, low, top)
    requires base - 8 * maxT >= top >= 0
    ensures Locals(c1, base, maxT, T)
  {
    forall t: nat | t in T
      ensures Slot(base, t) >= top
    {
      Small(base - 8 * t);
    }
  }

  /** One stack argument. */
  lemma PushDo(b: Board, c: Cpu, base: Word, maxT: nat, T: map<nat, Word>, t: nat) returns (c1: Cpu)
    requires Locals(c, base, maxT, T) && t in T && 8 <= c.regs.rsp && (c.regs.rsp - 8) in c.mem
    ensures CodeEnds(b, [Ld(RAX, t), Push(RAX)], c, c1)
    ensures c1.pc == c.pc + 2 && c1.regs.rsp == c.regs.rsp - 8 && c1.mem == c.mem[c.regs.rsp - 8 := T[t]]
    ensures c1.regs.rbp == c.regs.rbp && c1.trace == c.trace
  {
    hide Slot, DoAll;
    LdDo(b, c, base, maxT, T, RAX, t);
    var d := Reg1(c, RAX, T[t]);
    Ends1(b, Ld(RAX, t), c, d);
    Small(d.regs.rsp - 8);
    c1 := d.(pc := d.pc + 1, mem := d.mem[d.regs.rsp - 8 := T[t]], regs := d.regs.(rsp := d.regs.rsp - 8));
    Ends1(b, Push(RAX), d, c1);
    EndsSum(b, [Ld(RAX, t)], [Push(RAX)], c, d, c1);
    assert [Ld(RAX, t)] + [Push(RAX)] == [Ld(RAX, t), Push(RAX)];
  }

  /** There is stack from `low` up to rsp. */
  ghost predicate Mapped(c: Cpu, low: int) {
    0 <= low && forall a: Word :: low <= a < c.regs.rsp && a % 8 == 0 ==> a in c.mem
  }

  ghost predicate WordAt(M: map<Word, Word>, a: int, v: Word) {
    0 <= a < TWO64 && a in M && M[a] == v
  }

  /** Stack arguments 7..i stand above rsp in order. */
  ghost predicate Stacked(c: Cpu, T: map<nat, Word>, args: seq<nat>, i: nat) {
    forall j :: 6 <= j < i && j < |args| ==>
      args[j] in T && WordAt(c.mem, c.regs.rsp + 8 * (j - 6), T[args[j]])
  }

  lemma BelowSum(c: Cpu, d: Cpu, e: Cpu, low: int, mid: int, top: int)
    requires Below(c, d, mid, top) && Below(d, e, low, mid) && low <= mid <= top
    ensures Below(c, e, low, top)
  {
  }

  /** One more argument above those already pushed. */
  lemma StackedMore(d: Cpu, e: Cpu, T: map<nat, Word>, args: seq<nat>, i: nat)
    requires 6 < i <= |args| && args[i - 1] in T
    requires d.regs.rsp in d.mem && d.mem[d.regs.rsp] == T[args[i - 1]]
    requires Below(d, e, e.regs.rsp, d.regs.rsp) && e.regs.rsp == d.regs.rsp - 8 * (i - 7)
    requires Stacked(e, T, args, i - 1)
    ensures Stacked(e, T, args, i)
  {
  }

  /** Room for one more word. */
  lemma MappedLess(c: Cpu, d: Cpu, low: int)
    requires Mapped(c, low) && low <= c.regs.rsp - 8 && c.regs.rsp % 8 == 0
    requires d.regs.rsp == c.regs.rsp - 8 && d.mem.Keys == c.mem.Keys
    ensures c.regs.rsp - 8 in c.mem
    ensures Mapped(d, low) && d.regs.rsp % 8 == 0
  {
    var a: Word := c.regs.rsp - 8;
    assert a % 8 == 0;
  }

  /** The pushes put the arguments from the seventh on the stack, the seventh lowest. */
  lemma {:induction false} PushesDo(b: Board, c: Cpu, base: Word, maxT: nat, T: map<nat, Word>, args: seq<nat>,
                                    i: nat)
      returns (c1: Cpu)
    requires i <= |args| && I.AllSet(T, args) && Locals(c, base, maxT, T)
    requires base - 8 * maxT >= c.regs.rsp
    requires Mapped(c, c.regs.rsp - 8 * StackArgs(i)) && c.regs.rsp % 8 == 0
    ensures CodeEnds(b, Pushes(args, i), c, c1)
    ensures c1.pc == c.pc + |Pushes(args, i)|
    ensures c1.regs.rsp == c.regs.rsp - 8 * StackArgs(i)
    ensures Below(c, c1, c1.regs.rsp, c.regs.rsp)
    ensures Stacked(c1, T, args, i)
    decreases i
  {
    hide Slot, DoAll, Ld, Locals, Mapped, Below, CodeEnds;
    if i <= 6 {
      c1 := c;
      EndsNone(b, c);
      assert Below(c, c, c.regs.rsp, c.regs.rsp) by { BelowSelf(c); }
    } else {
      var t := args[i - 1];
      MappedHere(c, c.regs.rsp - 8 * StackArgs(i));
      var d := PushDo(b, c, base, maxT, T, t);
      BelowPush(c, d, T[t]);
      MappedLess(c, d, c.regs.rsp - 8 * StackArgs(i));
      LocalsBelow(c, d, d.regs.rsp, c.regs.rsp, base, maxT, T);
      c1 := PushesDo(b, d, base, maxT, T, args, i - 1);
      EndsSum(b, [Ld(RAX, t), Push(RAX)], Pushes(args, i - 1), c, d, c1);
      BelowSum(c, d, c1, c1.regs.rsp, d.regs.rsp, c.regs.rsp);
      StackedMore(d, c1, T, args, i);
    }
  }

  lemma BelowSelf(c: Cpu)
    ensures Below(c, c, c.regs.rsp, c.regs.rsp)
  {
  }

  lemma MappedHere(c: Cpu, low: int)
    requires Mapped(c, low) && low <= c.regs.rsp - 8 && c.regs.rsp % 8 == 0
    ensures 8 <= c.regs.rsp && c.regs.rsp - 8 in c.mem
  {
    var a: Word := c.regs.rsp - 8;
    assert a % 8 == 0;
  }

  lemma BelowPush(c: Cpu, d: Cpu, v: Word)
    requires c.regs.rsp >= 8 && c.regs.rsp - 8 in c.mem && d.regs.rsp == c.regs.rsp - 8
    requires d.mem.Keys == c.mem.Keys
    requires d.mem == c.mem[c.regs.rsp - 8 := v]
    requires d.regs.rbp == c.regs.rbp && d.trace == c.trace
    ensures Below(c, d, d.regs.rsp, c.regs.rsp)
  {
  }

  /** The first i register arguments are in their registers. */
  ghost predicate InRegs(c: Cpu, T: map<nat, Word>, args: seq<nat>, i: nat) {
    forall j :: 0 <= j < i && j < |args| && j < 6 ==> args[j] in T && c.regs.Get(ArgReg(j)) == T[args[j]]
  }

  lemma ArgRegs(i: nat, j: nat)
    requires i < j < 6
    ensures ArgReg(i) != ArgReg(j)
  {
  }

  lemma ArgRegOther(j: nat)
    ensures ArgReg(j) != RSP && ArgReg(j) != RBP && ArgReg(j) != RAX
  {
  }

  lemma {:induction false} LoadsDo(b: Board, c: Cpu, base: Word, maxT: nat, T: map<nat, Word>, args: seq<nat>, i: nat)
      returns (c1: Cpu)
    requires i <= |args| && i <= 6 && I.AllSet(T, args) && Locals(c, base, maxT, T)
    ensures CodeEnds(b, Loads(args, i), c, c1)
    ensures c1.pc == c.pc + i && |Loads(args, i)| == i
    ensures c1.regs.rsp == c.regs.rsp && c1.regs.rbp == c.regs.rbp && c1.mem == c.mem && c1.trace == c.trace
    ensures InRegs(c1, T, args, i)
  {
    hide Slot, DoAll, Ld, ArgReg, Regs.Get, Regs.Set;
    if i == 0 {
      c1 := c;
      EndsNone(b, c);
    } else {
      var d := LoadsDo(b, c, base, maxT, T, args, i - 1);
      var r, v := ArgReg(i - 1), T[args[i - 1]];
      LdDo(b, d, base, maxT, T, r, args[i - 1]);
      c1 := Reg1(d, r, v);
      LdStraight(r, args[i - 1]);
      Ends1(b, Ld(r, args[i - 1]), d, c1);
      EndsSum(b, Loads(args, i - 1), [Ld(r, args[i - 1])], c, d, c1);
      ArgRegOther(i - 1);
      SetGet(d.regs, r, v, RSP); SetGet(d.regs, r, v, RBP);
      SetGet(d.regs, r, v, r);
      forall j | 0 <= j < i - 1
        ensures c1.regs.Get(ArgReg(j)) == d.regs.Get(ArgReg(j))
      {
        ArgRegs(j, i - 1);
        SetGet(d.regs, r, v, ArgReg(j));
      }
    }
  }

  lemma LdStraight(r: Reg, t: nat)
    ensures Straight(Ld(r, t))
  {
  }

  lemma SetGet(R: Regs, r: Reg, v: Word, q: Reg)
    ensures R.Set(r, v).Get(q) == if q == r then v else R.Get(q)
    ensures R.Set(r, v).rsp == R.Set(r, v).Get(RSP) && R.Set(r, v).rbp == R.Set(r, v).Get(RBP)
    ensures R.rsp == R.Get(RSP) && R.rbp == R.Get(RBP)
  {
  }

  /** What the instructions before a call achieve: the arguments are where the callee looks for
      them, and rsp has gone down by an even number of words. */
  ghost predicate Passed(c: Cpu, c1: Cpu, T: map<nat, Word>, args: seq<nat>) {
    && c1.pc == c.pc + |BeforeCall(args)|
    && c1.regs.rsp == c.regs.rsp - 8 * (StackArgs(|args|) + Pad(|args|))
    && Below(c, c1, c1.regs.rsp, c.regs.rsp)
    && Stacked(c1, T, args, |args|)
    && InRegs(c1, T, args, |args|)
  }

  lemma PadDo(b: Board, c: Cpu, n: nat, low: int) returns (c1: Cpu)
    requires Mapped(c, low) && c.regs.rsp % 8 == 0 && low <= c.regs.rsp - 8 * Pad(n)
    ensures CodeEnds(b, if Pad(n) == 1 then [SubRsp(8)] else [], c, c1)
    ensures c1.pc == c.pc + Pad(n) && c1.regs.rsp == c.regs.rsp - 8 * Pad(n)
    ensures c1.mem == c.mem && c1.trace == c.trace && c1.regs.rbp == c.regs.rbp
    ensures Mapped(c1, low) && c1.regs.rsp % 8 == 0
  {
    hide DoAll, Wrap;
    if Pad(n) == 1 {
      Small(c.regs.rsp - 8);
      c1 := c.(pc := c.pc + 1, flags := Unknown, regs := c.regs.(rsp := c.regs.rsp - 8));
      Ends1(b, SubRsp(8), c, c1);
    } else {
      c1 := c;
      EndsNone(b, c);
    }
  }

  lemma BeforeDo(b: Board, c: Cpu, base: Word, maxT: nat, T: map<nat, Word>, args: seq<nat>) returns (c1: Cpu)
    requires I.AllSet(T, args) && Locals(c, base, maxT, T)
    requires base - 8 * maxT >= c.regs.rsp && c.regs.rsp % 8 == 0
    requires Mapped(c, c.regs.rsp - 8 * (StackArgs(|args|) + Pad(|args|)))
    ensures CodeEnds(b, BeforeCall(args), c, c1)
    ensures Passed(c, c1, T, args)
  {
    hide Slot, DoAll, Ld, Mapped, CodeEnds, StackArgs, Pad, Stacked, Pushes, Loads, InRegs;
    var n := |args|;
    var d := PadDo(b, c, n, c.regs.rsp - 8 * (StackArgs(n) + Pad(n)));
    var e := PushesDo(b, d, base, maxT, T, args, n);
    LocalsBelow(d, e, e.regs.rsp, d.regs.rsp, base, maxT, T);
    var f := LoadsDo(b, e, base, maxT, T, args, RegArgs(n));
    c1 := f.(pc := f.pc + 1, regs := f.regs.(rax := 0), flags := Unknown);
    Ends1(b, XorEax, f, c1);
    var pad := if Pad(n) == 1 then [SubRsp(8)] else [];
    EndsSum(b, pad, Pushes(args, n), c, d, e);
    EndsSum(b, pad + Pushes(args, n), Loads(args, RegArgs(n)), c, e, f);
    EndsSum(b, pad + Pushes(args, n) + Loads(args, RegArgs(n)), [XorEax], c, f, c1);
    StackedSame(e, c1, T, args, n);
    InRegsMore(f, c1, T, args);
    PadLength(n);
    assert BeforeCall(args) == pad + Pushes(args, n) + Loads(args, RegArgs(n)) + [XorEax];
  }

  lemma PadLength(n: nat)
    ensures Pad(n) == 0 || Pad(n) == 1
  {
  }

  lemma StackedSame(c: Cpu, d: Cpu, T: map<nat, Word>, args: seq<nat>, i: nat)
    requires Stacked(c, T, args, i) && d.regs.rsp == c.regs.rsp && d.mem == c.mem
    ensures Stacked(d, T, args, i)
  {
    forall j | 6 <= j < i && j < |args|
      ensures args[j] in T && WordAt(d.mem, d.regs.rsp + 8 * (j - 6), T[args[j]])
    {
      assert WordAt(c.mem, c.regs.rsp + 8 * (j - 6), T[args[j]]);
    }
  }

  lemma InRegsMore(c: Cpu, d: Cpu, T: map<nat, Word>, args: seq<nat>)
    requires InRegs(c, T, args, RegArgs(|args|)) && d.regs == c.regs.(rax := 0)
    ensures InRegs(d, T, args, |args|)
  {
  }

  // ----- writes below the innermost frame -----

  /** `N` differs from `M` in words of the stack under `top` only. */
  ghost predicate OnlyBelow(b: Board, M: map<Word, Word>, N: map<Word, Word>, top: int) {
    && N.Keys == M.Keys
    && (forall a :: a in M && !(b.lo <= a < top) ==> N[a] == M[a])
  }

  /** The program's own addresses are not under the frame of the innermost activation. */
  lemma KeysAbove(fns: seq<I.Fn>, b: Board, s: I.State, M: map<Word, Word>, a: Word)
    requires MemoryFits(fns, b, s, M) && a in s.mem && InStack(b, a)
    ensures a >= s.stack.act.base - FrameSize(s.stack.act.fn)
  {
    hide TopTemp, FrameSize, CellsOf, Linked, Member;
    if a in CellsOf(fns, b, s.stack.act) {
      CellIs(fns, b, s.stack.act, M, a);
    }
  }

  lemma FitsUnder(fns: seq<I.Fn>, b: Board, s: I.State, M: map<Word, Word>, N: map<Word, Word>, tr: seq<I.Event>)
    requires MemoryFits(fns, b, s, M)
    requires OnlyBelow(b, M, N, s.stack.act.base - FrameSize(s.stack.act.fn))
    ensures MemoryFits(fns, b, I.Running(s.stack, s.mem, tr), N)
  {
    hide TopTemp, FrameSize, CellsOf, StackOK, I.Allocs;
    var act := s.stack.act;
    var top := act.base - FrameSize(act.fn);
    FrameBounds(fns, b, s, M);
    FrameHolds(act.fn);
    assert Same(b, M, N, top, s.mem.Keys);
    StackStable(fns, b, s.stack, M, N, top, s.mem.Keys);
    forall a | a in s.mem
      ensures a in N && (s.mem[a].Is? ==> N[a] == s.mem[a].word)
    {
      if InStack(b, a) {
        KeysAbove(fns, b, s, M, a);
      }
    }
  }

  lemma FrameBounds(fns: seq<I.Fn>, b: Board, s: I.State, M: map<Word, Word>)
    requires MemoryFits(fns, b, s, M)
    ensures var act := s.stack.act;
            && b.lo <= act.base - FrameSize(act.fn) && act.base + 16 <= b.hi
            && act.base % 16 == 0 && FrameSize(act.fn) % 16 == 0
            && act.base - 8 * TopTemp(act.fn) >= act.base - FrameSize(act.fn)
            && Member(fns, act.fn)
  {
    hide TopTemp, FrameSize, CellsOf, Linked, Member, I.Allocs;
    FrameHolds(s.stack.act.fn);
  }

  lemma CallSite(fns: seq<I.Fn>, b: Board, s: I.State, c: Cpu)
    requires Poised(fns, b, s, c) && Instr(s).Call?
    ensures TextAt(b.text, c.pc, BeforeCall(Instr(s).args))
    ensures var p := c.pc + |BeforeCall(Instr(s).args)|;
            p < |b.text| && b.text[p] == Item.Call(Instr(s).name)
  {
    hide TopTemp, FrameSize, Match, BeforeCall, AfterCall, TextAt, I.Allocs;
    var i := Instr(s);
    MatchSite(fns, b, s, c);
    var z := AfterCall(|i.args|, i.dest);
    assert CodeAt(s.stack.act) == BeforeCall(i.args) + [Item.Call(i.name)] + z;
    AtSplit(b.text, c.pc, BeforeCall(i.args) + [Item.Call(i.name)], z);
    AtSplit(b.text, c.pc, BeforeCall(i.args), [Item.Call(i.name)]);
    AtIndex(b.text, c.pc + |BeforeCall(i.args)|, [Item.Call(i.name)], 0);
  }

  /** Where rsp stands at the `call`. */
  function CallRsp(act: I.Act, n: nat): int {
    act.base - FrameSize(act.fn) - 8 * (StackArgs(n) + Pad(n))
  }

  lemma EvenWords(x: int, k: nat)
    requires x % 16 == 0 && k % 2 == 0
    ensures (x - 8 * k) % 16 == 0
  {
    var h := k / 2;
    assert 8 * k == 16 * h;
  }

  lemma Aligned(base: int, frame: int, n: nat)
    requires base % 16 == 0 && frame % 16 == 0
    ensures (base - frame) % 16 == 0 && (base - frame - 8 * (StackArgs(n) + Pad(n))) % 16 == 0
    ensures (base - frame) % 8 == 0
  {
    PadEven(n);
    EvenWords(base - frame, StackArgs(n) + Pad(n));
  }

  /** The machine at a `call`: the arguments are passed and the stack pointer is aligned. */
  ghost predicate Calling(fns: seq<I.Fn>, b: Board, s: I.State, c: Cpu) {
    && s.Running? && s.stack.Push? && s.stack.act.pc < |s.stack.act.fn.code| && Instr(s).Call?
    && I.AllSet(s.stack.act.temps, Instr(s).args)
    && Rigged(fns, b) && MemoryFits(fns, b, s, c.mem) && Member(fns, s.stack.act.fn)
    && var act, args := s.stack.act, Instr(s).args;
    && c.pc == Place(fns, Index(fns, act.fn), act.pc) + |BeforeCall(args)|
    && c.pc < |b.text| && b.text[c.pc] == Item.Call(Instr(s).name)
    && c.regs.rbp == act.base && c.regs.rsp == CallRsp(act, |args|) && c.regs.rsp % 16 == 0
    && c.trace == s.trace
    && Stacked(c, act.temps, args, |args|) && InRegs(c, act.temps, args, |args|)
  }

  lemma ReachCall(fns: seq<I.Fn>, b: Board, s: I.State, c: Cpu) returns (c1: Cpu)
    requires Poised(fns, b, s, c) && Instr(s).Call? && I.AllSet(s.stack.act.temps, Instr(s).args)
    requires CallRsp(s.stack.act, |Instr(s).args|) >= b.lo
    ensures Reaches(b, On(c), On(c1), 0) && Calling(fns, b, s, c1)
  {
    hide TopTemp, FrameSize, MemoryFits, BeforeCall, TextAt, I.Allocs, Locals, Place, Reaches, CodeEnds, StackArgs,
      Pad, Below, Slot,
         DoAll, Rigged;
    var act, args := s.stack.act, Instr(s).args;
    CallSite(fns, b, s, c);
    MatchLocals(fns, b, s, c);
    FrameBounds(fns, b, s, c.mem);
    Aligned(act.base, FrameSize(act.fn), |args|);
    StackThere(fns, b, s, c, CallRsp(act, |args|));
    c1 := BeforeDo(b, c, act.base, TopTemp(act.fn), act.temps, args);
    RunEnds(b, BeforeCall(args), c, c1);
    BelowUnder(b, c, c1);
    FitsUnder(fns, b, s, c.mem, c1.mem, s.trace);
    assert c1.regs.rbp == c.regs.rbp && c1.trace == c.trace by { BelowKeeps(c, c1, c1.regs.rsp, c.regs.rsp); }
  }

  lemma BelowKeeps(c: Cpu, c1: Cpu, low: int, top: int)
    requires Below(c, c1, low, top)
    ensures c1.regs.rbp == c.regs.rbp && c1.trace == c.trace
  {
  }

  lemma BelowUnder(b: Board, c: Cpu, c1: Cpu)
    requires Below(c, c1, c1.regs.rsp, c.regs.rsp) && c1.regs.rsp >= b.lo
    ensures OnlyBelow(b, c.mem, c1.mem, c.regs.rsp)
  {
  }

  lemma RunEnds(b: Board, code: seq<Item>, c: Cpu, c1: Cpu)
    requires CodeEnds(b, code, c, c1) && TextAt(b.text, c.pc, code)
    ensures Reaches(b, On(c), On(c1), |code|) && Reaches(b, On(c), On(c1), 0)
  {
    hide DoAll, Reaches;
    RunStraight(b, code, c);
    ReachesLess(b, On(c), On(c1), |code|, 0);
  }

  lemma StackThere(fns: seq<I.Fn>, b: Board, s: I.State, c: Cpu, low: int)
    requires Match(fns, b, s, c) && low >= b.lo
    ensures Mapped(c, low)
  {
    hide TopTemp, FrameSize, StackOK, MemoryOK, Place, I.Allocs, Member;
    FrameBounds(fns, b, s, c.mem);
    FrameHolds(s.stack.act.fn);
  }

  // ----- calls that leave the program -----

  /** What an outside function finds as its arguments is what was passed. */
  lemma {:induction false} ArgsSeen(c: Cpu, T: map<nat, Word>, args: seq<nat>, n: nat)
    requires n <= |args| && I.AllSet(T, args)
    requires Stacked(c, T, args, |args|) && InRegs(c, T, args, |args|)
    ensures AbiArgs(c, n) == Some(I.Values(T, args)[..n])
    decreases n
  {
    hide InRegs, Stacked;
    if n > 0 {
      ArgsSeen(c, T, args, n - 1);
      var vs := I.Values(T, args);
      assert vs[..n] == vs[..n - 1] + [vs[n - 1]];
      if n <= 6 {
        InRegsAt(c, T, args, n - 1);
      } else {
        StackedAt(c, T, args, n - 1);
        Small(c.regs.rsp + 8 * (n - 7));
      }
    }
  }

  lemma InRegsAt(c: Cpu, T: map<nat, Word>, args: seq<nat>, j: nat)
    requires InRegs(c, T, args, |args|) && j < |args| && j < 6
    ensures args[j] in T && c.regs.Get(ArgReg(j)) == T[args[j]]
  {
  }

  lemma StackedAt(c: Cpu, T: map<nat, Word>, args: seq<nat>, j: nat)
    requires Stacked(c, T, args, |args|) && 6 <= j < |args|
    ensures args[j] in T && 0 <= c.regs.rsp + 8 * (j - 6) < TWO64
    ensures c.regs.rsp + 8 * (j - 6) in c.mem && c.mem[c.regs.rsp + 8 * (j - 6)] == T[args[j]]
  {
  }

  /** A call out of the program makes the event of the IR machine and keeps everything the
      caller owns. */
  lemma LeaveProgram(fns: seq<I.Fn>, b: Board, s: I.State, c: Cpu) returns (c1: Cpu)
    requires Calling(fns, b, s, c)
    requires I.FindFn(fns, Instr(s).name) < 0 && |Instr(s).args| == b.env.arity(Instr(s).name)
    requires CallRsp(s.stack.act, |Instr(s).args|) - 8 >= b.lo
    ensures Step(b, On(c)) == On(c1)
    ensures var vs := I.Values(s.stack.act.temps, Instr(s).args);
            var v := b.env.answer(s.trace, Instr(s).name, vs);
            c1.regs.rax == v
            && Answered(fns, b, I.Running(s.stack, s.mem, s.trace + [I.Event(Instr(s).name, vs, v)]), c1)
  {
    hide TopTemp, FrameSize, MemoryFits, BeforeCall, I.Allocs, Place, StackArgs, Pad, Stacked, InRegs, AbiArgs,
      Scribbled,
         Step, FindItem, I.FindFn, Text, OnlyBelow, Slot;
    var act, args, name := s.stack.act, Instr(s).args, Instr(s).name;
    var n, vs := |args|, I.Values(act.temps, args);
    var v := b.env.answer(s.trace, name, vs);
    ArgsSeen(c, act.temps, args, n);
    assert vs[..n] == vs;
    FindGlobal(fns, name);
    PushRoom(fns, b, s, c);
    var tr := s.trace + [I.Event(name, vs, v)];
    var M := Scribbled(b, c.mem, tr, c.regs.rsp + 8 * StackArgs(n));
    c1 := OutDo(b, c, name, vs);
    ScribbledUnder(fns, b, s, c, tr);
    FitsUnder(fns, b, s, c.mem, M, tr);
  }

  lemma OutDo(b: Board, c: Cpu, name: string, vs: seq<Word>) returns (c1: Cpu)
    requires c.pc < |b.text| && b.text[c.pc] == Item.Call(name) && FindItem(b.text, Global(name)) == |b.text|
    requires c.regs.rsp % 16 == 0 && c.regs.rsp >= 8 && c.regs.rsp - 8 in c.mem
    requires AbiArgs(c, b.env.arity(name)) == Some(vs)
    ensures Step(b, On(c)) == On(c1)
    ensures var v := b.env.answer(c.trace, name, vs);
            var tr := c.trace + [I.Event(name, vs, v)];
            && c1.pc == c.pc + 1 && c1.regs.rax == v && c1.regs.rsp == c.regs.rsp && c1.regs.rbp == c.regs.rbp
            && c1.trace == tr
            && c1.mem == Scribbled(b, c.mem, tr, c.regs.rsp + 8 * StackArgs(b.env.arity(name)))
  {
    hide AbiArgs, Scribbled, FindItem, StackArgs, Wrap;
    Small(c.regs.rsp - 8);
    c1 := CallOut(b, c, name).cpu;
  }

  lemma WordBelow(x: int)
    requires x % 16 == 0
    ensures (x - 8) % 8 == 0
  {
  }

  lemma PushRoom(fns: seq<I.Fn>, b: Board, s: I.State, c: Cpu)
    requires Calling(fns, b, s, c) && CallRsp(s.stack.act, |Instr(s).args|) - 8 >= b.lo
    ensures c.regs.rsp >= 8 && c.regs.rsp - 8 in c.mem && InStack(b, c.regs.rsp - 8)
  {
    hide TopTemp, FrameSize, StackOK, MemoryOK, BeforeCall, I.Allocs, Place, StackArgs, Pad, Stacked, InRegs, Rigged,
         Member, I.AllSet;
    FrameBounds(fns, b, s, c.mem);
    var a: Word := c.regs.rsp - 8;
    WordBelow(c.regs.rsp);
    assert InStack(b, a);
  }

  lemma ScribbledUnder(fns: seq<I.Fn>, b: Board, s: I.State, c: Cpu, tr: seq<I.Event>)
    requires Calling(fns, b, s, c)
    ensures OnlyBelow(b, c.mem, Scribbled(b, c.mem, tr, c.regs.rsp + 8 * StackArgs(|Instr(s).args|)),
                  s.stack.act.base - FrameSize(s.stack.act.fn))
  {
    hide TopTemp, FrameSize, MemoryFits, BeforeCall, I.Allocs, Place, StackArgs, Pad, Stacked, InRegs;
  }

  /** Calls of functions that the program does not define. */
  lemma SimOutside(fns: seq<I.Fn>, b: Board, s: I.State, c: Cpu)
    requires Poised(fns, b, s, c) && Instr(s).Call? && I.FindFn(fns, Instr(s).name) < 0
    requires !I.Step(MachineOf(fns, b), s).Faulted?
    ensures Simulates(fns, b, c, I.Step(MachineOf(fns, b), s))
  {
    hide TopTemp, FrameSize, Match, BeforeCall, I.Allocs, Place, StackArgs, Pad, Stacked, InRegs, Rigged, Simulates,
         Reaches, Step;
    MatchMember(fns, b, s, c);
    OutsideRoom(fns, b, s);
    var c1 := ReachCall(fns, b, s, c);
    var c2 := LeaveProgram(fns, b, s, c1);
    var vs := I.Values(s.stack.act.temps, Instr(s).args);
    var t := I.Running(s.stack, s.mem, s.trace + [I.Event(Instr(s).name, vs, c2.regs.rax)]);
    Cleanup(fns, b, t, c2);
    Stepped(b, On(c), On(c1), 0);
    SimulatesAfter(fns, b, c, c2, 1, I.Set(t, Instr(s).dest, c2.regs.rax));
    OutsideStep(fns, b, s);
  }

  lemma MatchMember(fns: seq<I.Fn>, b: Board, s: I.State, c: Cpu)
    requires Match(fns, b, s, c)
    ensures Member(fns, s.stack.act.fn)
  {
    hide MemoryFits, FrameSize, Place;
  }

  lemma OutsideRoom(fns: seq<I.Fn>, b: Board, s: I.State)
    requires s.Running? && s.stack.Push? && s.stack.act.pc < |s.stack.act.fn.code|
    requires Instr(s).Call? && I.FindFn(fns, Instr(s).name) < 0 && Member(fns, s.stack.act.fn)
    requires !I.Step(MachineOf(fns, b), s).Faulted?
    ensures I.AllSet(s.stack.act.temps, Instr(s).args)
    ensures |Instr(s).args| == b.env.arity(Instr(s).name)
    ensures CallRsp(s.stack.act, |Instr(s).args|) - 8 >= b.lo
  {
    hide FrameSize, StackArgs, Pad;
  }

  lemma OutsideStep(fns: seq<I.Fn>, b: Board, s: I.State)
    requires s.Running? && s.stack.Push? && s.stack.act.pc < |s.stack.act.fn.code|
    requires Instr(s).Call? && I.FindFn(fns, Instr(s).name) < 0
    requires !I.Step(MachineOf(fns, b), s).Faulted?
    ensures I.AllSet(s.stack.act.temps, Instr(s).args)
    ensures var vs := I.Values(s.stack.act.temps, Instr(s).args);
            var v := b.env.answer(s.trace, Instr(s).name, vs);
            I.Step(MachineOf(fns, b), s)
            == I.Set(I.Running(s.stack, s.mem, s.trace + [I.Event(Instr(s).name, vs, v)]), Instr(s).dest, v)
  {
    hide FrameSize, StackArgs, Pad;
  }
}
