/** The whole stack of activations in the machine's memory: temps, cells, saved bases and
    return addresses, and why writes of one activation do not disturb another. */
module Frames {
  import opened Words
  import I = Ir
  import opened X86
  import opened Codegen
  import opened CodegenOps
  import opened Listings

  /** Every instruction that sets a temp sets one numbered from 1. */
  predicate TempsNumbered(fn: I.Fn) {
    forall i :: 0 <= i < |fn.code| ==>
      var x := fn.code[i];
      Dest(x) == 0 ==> x.Label? || x.Store? || x.GlobalStore? || x.Jump? || x.Branch? || x.Return?
  }

  /** The board carries the listing of `fns`. */
  ghost predicate Rigged(fns: seq<I.Fn>, b: Board) {
    && b.text == Text(fns) && |b.text| < TWO64
    && DistinctNames(fns)
    && (forall i :: 0 <= i < |fns| ==> TempsNumbered(fns[i]))
  }

  function WorldOf(fns: seq<I.Fn>, b: Board): I.World {
    I.World(LayoutOf(fns, b), b.env)
  }

  function MachineOf(fns: seq<I.Fn>, b: Board): I.Machine {
    I.Machine(fns, WorldOf(fns, b))
  }

  predicate InStack(b: Board, a: int) {
    b.lo <= a < b.hi
  }

  /** Every aligned word of the stack is mapped. */
  ghost predicate StackMapped(b: Board, M: map<Word, Word>) {
    forall a: Word :: InStack(b, a) && a % 8 == 0 ==> a in M
  }

  /** The cells of an activation. */
  function CellsOf(fns: seq<I.Fn>, b: Board, act: I.Act): set<Word> {
    I.CellSet(WorldOf(fns, b), act.fn.name, act.base, I.Allocs(act.fn.code))
  }

  ghost predicate Member(fns: seq<I.Fn>, fn: I.Fn) {
    var i := I.FindFn(fns, fn.name);
    i >= 0 && fns[i] == fn
  }

  function Index(fns: seq<I.Fn>, fn: I.Fn): nat
    requires Member(fns, fn)
  {
    I.FindFn(fns, fn.name)
  }

  /** The frame lies in the stack, aligned, and holds the temps. */
  ghost predicate ActOK(fns: seq<I.Fn>, b: Board, act: I.Act, M: map<Word, Word>) {
    && Member(fns, act.fn)
    && act.pc <= |act.fn.code|
    && act.base % 16 == 0
    && b.lo + FrameSize(act.fn) <= act.base && act.base + 16 <= b.hi
    && (forall t: nat :: t in act.temps ==>
          1 <= t <= TopTemp(act.fn) && Slot(act.base, t) in M && M[Slot(act.base, t)] == act.temps[t])
  }

  /** The arguments of the call that a suspended activation rests on. */
  function PendingArgs(act: I.Act): seq<nat> {
    if act.pc < |act.fn.code| && act.fn.code[act.pc].Call? then act.fn.code[act.pc].args else []
  }

  /** Where a callee of the innermost activation of `stack` returns to. */
  function ReturnTo(fns: seq<I.Fn>, b: Board, stack: I.Stack): int {
    match stack
    case Bottom => |b.text|
    case Push(act, _) =>
      var i := I.FindFn(fns, act.fn.name);
      if i < 0 || act.pc > |fns[i].code| then -1
      else Place(fns, i, act.pc) + |BeforeCall(PendingArgs(act))| + 1
  }

  /** `caller` rests on the call that created the activation at `base`. */
  ghost predicate Suspended(caller: I.Act, base: int) {
    && caller.pc < |caller.fn.code| && caller.fn.code[caller.pc].Call?
    && base == CalleeBase(caller.base, FrameSize(caller.fn), |PendingArgs(caller)|)
  }

  /** The words that link an activation to the one below it on the stack. */
  ghost predicate Linked(fns: seq<I.Fn>, b: Board, act: I.Act, rest: I.Stack, M: map<Word, Word>) {
    && act.base in M && Wrap(act.base + 8) in M && M[Wrap(act.base + 8)] == ReturnTo(fns, b, rest)
    && (rest.Push? ==> M[act.base] == rest.act.base && Suspended(rest.act, act.base))
  }

  /** The whole stack. `keys` are the addresses the program may use: at each activation, its own
      cells, and otherwise nothing in the stack below the frames of its callers. */
  ghost predicate StackOK(fns: seq<I.Fn>, b: Board, stack: I.Stack, M: map<Word, Word>, keys: set<Word>) {
    match stack
    case Bottom => forall a :: a in keys ==> !InStack(b, a)
    case Push(act, rest) =>
      && ActOK(fns, b, act, M)
      && Linked(fns, b, act, rest, M)
      && CellsOf(fns, b, act) <= keys
      && (forall a :: a in keys && a !in CellsOf(fns, b, act) ==> !InStack(b, a) || a >= act.base + 16)
      && StackOK(fns, b, rest, M, keys - CellsOf(fns, b, act))
  }

  /** Initialised cells hold the same word in the machine. */
  ghost predicate MemoryOK(mem: I.Memory, M: map<Word, Word>) {
    forall a :: a in mem ==> a in M && (mem[a].Is? ==> M[a] == mem[a].word)
  }

  /** Memory holds what the state of the IR machine says. */
  ghost predicate MemoryFits(fns: seq<I.Fn>, b: Board, s: I.State, M: map<Word, Word>) {
    && s.Running? && s.stack.Push?
    && StackOK(fns, b, s.stack, M, s.mem.Keys)
    && MemoryOK(s.mem, M)
    && StackMapped(b, M)
  }

  /** The machine is at an instruction boundary of the innermost activation: rbp is its base and
      rsp the lower end of its frame. */
  ghost predicate Match(fns: seq<I.Fn>, b: Board, s: I.State, c: Cpu) {
    && s.Running? && s.stack.Push?
    && MemoryFits(fns, b, s, c.mem)
    && var act := s.stack.act;
    && Member(fns, act.fn) && act.pc <= |act.fn.code|
    && c.pc == Place(fns, Index(fns, act.fn), act.pc)
    && c.regs.rbp == act.base
    && c.regs.rsp == act.base - FrameSize(act.fn)
    && c.trace == s.trace
  }

  // ----- geometry -----

  lemma FrameHolds(fn: I.Fn)
    ensures FrameSize(fn) >= 8 * (TopTemp(fn) + I.Allocs(fn.code)) && FrameSize(fn) % 16 == 0
  {
    hide I.Allocs, TopTemp;
  }

  lemma Down(base: Word, k: nat, lo: Word)
    requires base % 16 == 0 && base - 8 * k >= lo
    ensures Wrap(base - 8 * k) == base - 8 * k
    ensures (base - 8 * k) % 8 == 0
  {
    var q := base / 16;
    assert base == 16 * q;
    Small(base - 8 * k);
    EightTimes(2 * q - k);
  }

  lemma Small(x: int)
    requires 0 <= x < TWO64
    ensures Wrap(x) == x
  {
  }

  lemma EightTimes(x: int)
    ensures (8 * x) % 8 == 0
  {
  }

  lemma SlotIs(fns: seq<I.Fn>, b: Board, act: I.Act, M: map<Word, Word>, t: nat)
    requires ActOK(fns, b, act, M) && t <= TopTemp(act.fn)
    ensures Slot(act.base, t) == act.base - 8 * t >= b.lo
    ensures Slot(act.base, t) % 8 == 0
  {
    hide TopTemp, FrameSize, Member, I.Allocs, Wrap;
    FrameHolds(act.fn);
    Down(act.base, t, b.lo);
  }

  lemma CellIs(fns: seq<I.Fn>, b: Board, act: I.Act, M: map<Word, Word>, a: Word)
    requires ActOK(fns, b, act, M) && a in CellsOf(fns, b, act)
    ensures b.lo <= act.base - FrameSize(act.fn) <= a < act.base - 8 * TopTemp(act.fn)
    ensures a % 8 == 0
  {
    hide TopTemp, FrameSize, I.Allocs, Wrap, InStack, Slot;
    FrameHolds(act.fn);
    var k := CellNumber(fns, b, act, a);
    Down(act.base, TopTemp(act.fn) + k + 1, b.lo);
  }

  lemma CellNumber(fns: seq<I.Fn>, b: Board, act: I.Act, a: Word) returns (k: nat)
    requires Member(fns, act.fn) && a in CellsOf(fns, b, act)
    ensures k < I.Allocs(act.fn.code) && a == Wrap(act.base - 8 * (TopTemp(act.fn) + k + 1))
  {
    hide TopTemp, I.Allocs, Wrap;
    k :| 0 <= k < I.Allocs(act.fn.code) && a == WorldOf(fns, b).lay.cell(act.fn.name, act.base, k);
    assert TopOf(fns, act.fn.name) == TopTemp(act.fn);
  }

  /** A caller's frame lies wholly above its callee's return address. */
  lemma CallerAbove(fns: seq<I.Fn>, b: Board, act: I.Act, rest: I.Stack, M: map<Word, Word>)
    requires Linked(fns, b, act, rest, M) && rest.Push?
    ensures rest.act.base - FrameSize(rest.act.fn) >= act.base + 16
  {
    hide FrameSize, ReturnTo;
  }

  // ----- stability -----

  /** Words of the stack that frames rely on: above `floor` and not open to the program. */
  ghost predicate Same(b: Board, M: map<Word, Word>, N: map<Word, Word>, floor: int, keys: set<Word>) {
    forall a :: a in M ==> a in N && (InStack(b, a) && a >= floor && a !in keys ==> N[a] == M[a])
  }

  lemma ActStable(fns: seq<I.Fn>, b: Board, act: I.Act, M: map<Word, Word>, N: map<Word, Word>, floor: int,
                  keys: set<Word>)
    requires ActOK(fns, b, act, M) && Same(b, M, N, floor, keys)
    requires floor <= act.base - 8 * TopTemp(act.fn)
    requires forall a :: a in keys && a !in CellsOf(fns, b, act) ==> !InStack(b, a) || a >= act.base + 16
    ensures ActOK(fns, b, act, N)
  {
    hide TopTemp, FrameSize, CellsOf, Member, Slot;
    forall t: nat | t in act.temps
      ensures Slot(act.base, t) in N && N[Slot(act.base, t)] == act.temps[t]
    {
      SlotIs(fns, b, act, M, t);
      var a := Slot(act.base, t);
      if a in CellsOf(fns, b, act) {
        CellIs(fns, b, act, M, a);
      }
    }
  }

  lemma LinkStable(fns: seq<I.Fn>, b: Board, act: I.Act, rest: I.Stack, M: map<Word, Word>, N: map<Word, Word>,
                   floor: int, keys: set<Word>)
    requires ActOK(fns, b, act, M) && Linked(fns, b, act, rest, M) && Same(b, M, N, floor, keys)
    requires floor <= act.base
    requires forall a :: a in keys && a !in CellsOf(fns, b, act) ==> !InStack(b, a) || a >= act.base + 16
    ensures Linked(fns, b, act, rest, N)
  {
    hide TopTemp, FrameSize, CellsOf, Member, Slot, ReturnTo, Suspended;
    FrameHolds(act.fn);
    forall a: Word | a == act.base || a == Wrap(act.base + 8)
      ensures a in N && N[a] == M[a]
    {
      assert a == act.base || a == act.base + 8;
      if a in CellsOf(fns, b, act) {
        CellIs(fns, b, act, M, a);
      }
    }
  }

  /** A frame's words and its callers' survive writes below them and writes to the program's
      own addresses. */
  lemma {:induction false} StackStable(fns: seq<I.Fn>, b: Board, stack: I.Stack, M: map<Word, Word>,
                                      N: map<Word, Word>, floor: int, keys: set<Word>)
    requires StackOK(fns, b, stack, M, keys) && Same(b, M, N, floor, keys)
    requires stack.Push? ==> floor <= stack.act.base - 8 * TopTemp(stack.act.fn)
    ensures StackOK(fns, b, stack, N, keys)
    decreases stack, 0
  {
    hide TopTemp, FrameSize, CellsOf, ActOK, Linked, InStack;
    match stack
    case Bottom =>
    case Push(act, rest) =>
      ActStable(fns, b, act, M, N, floor, keys);
      LinkStable(fns, b, act, rest, M, N, floor, keys);
      RestStable(fns, b, act, rest, M, N, floor, keys);
  }

  lemma {:induction false} RestStable(fns: seq<I.Fn>, b: Board, act: I.Act, rest: I.Stack, M: map<Word, Word>,
                                     N: map<Word, Word>, floor: int, keys: set<Word>)
    requires ActOK(fns, b, act, M) && Linked(fns, b, act, rest, M)
    requires StackOK(fns, b, rest, M, keys - CellsOf(fns, b, act))
    requires Same(b, M, N, floor, keys) && floor <= act.base + 16
    ensures StackOK(fns, b, rest, N, keys - CellsOf(fns, b, act))
    decreases rest, 1
  {
    hide TopTemp, FrameSize, CellsOf, ActOK, Linked, StackOK;
    var mine := CellsOf(fns, b, act);
    assert Same(b, M, N, act.base + 16, keys - mine) by {
      forall a | a in M && InStack(b, a) && a >= act.base + 16 && a !in keys - mine
        ensures a in N && N[a] == M[a]
      {
        if a in mine {
          CellIs(fns, b, act, M, a);
        }
      }
    }
    if rest.Push? {
      CallerAbove(fns, b, act, rest, M);
      FrameHolds(rest.act.fn);
    }
    StackStable(fns, b, rest, M, N, act.base + 16, keys - mine);
  }
}
