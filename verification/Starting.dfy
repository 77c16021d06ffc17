/** The compiler's theorems start from a processor that is set up for a call. Here is one, for every
    lowered program whose globals and first frame fit into memory. */
module Starting {
  import opened Words
  import opened Ast
  import opened X86
  import opened Codegen
  import opened Frames
  import opened Listings
  import opened CallSimulation
  import opened EnterSimulation
  import opened BackEnd
  import GA = GlobalArrays
  import S = Source
  import I = Ir

  // ----- the processor -----

  /** The word of the stack at a: the return address, an argument, or zero. */
  function FirstWord(end: Word, base: Word, args: seq<Word>, a: Word): Word {
    if a == base + 8 then end
    else if a >= base + 16 && (a - base - 16) % 8 == 0 && (a - base - 16) / 8 + 6 < |args| then
      args[(a - base - 16) / 8 + 6]
    else 0
  }

  function FirstMemory(b: Board, end: Word, base: Word, args: seq<Word>, mem: I.Memory): map<Word, Word> {
    (map a: Word | b.lo <= a < b.hi :: FirstWord(end, base, args, a))
    + (map a | a in mem :: if mem[a].Is? then mem[a].word else 0)
  }

  function ArgOr(args: seq<Word>, i: nat): Word {
    if i < |args| then args[i] else 0
  }

  /** As the ABI passes arguments, with a return address behind the listing. */
  function FirstCpu(fns: seq<I.Fn>, b: Board, entry: nat, base: Word, args: seq<Word>, mem: I.Memory): Cpu
    requires |b.text| < TWO64 && entry < |fns| && base + 8 < TWO64
  {
    var regs := Regs(0, ArgOr(args, 3), ArgOr(args, 2), ArgOr(args, 1), ArgOr(args, 0), ArgOr(args, 4), ArgOr(args, 5),
                     base + 8, 0);
    Cpu(Start(fns, entry), regs, Unknown, FirstMemory(b, |b.text|, base, args, mem), [])
  }

  lemma StackWord(b: Board, end: Word, base: Word, args: seq<Word>, mem: I.Memory, a: Word)
    requires InStack(b, a) && forall x :: x in mem ==> !InStack(b, x)
    ensures a in FirstMemory(b, end, base, args, mem)
    ensures FirstMemory(b, end, base, args, mem)[a] == FirstWord(end, base, args, a)
  {
  }

  lemma ArgWord(end: Word, base: Word, args: seq<Word>, j: nat)
    requires 6 <= j < |args| && base + 16 + 8 * (j - 6) < TWO64
    ensures FirstWord(end, base, args, base + 16 + 8 * (j - 6)) == args[j]
  {
  }

  lemma FirstIncoming(fns: seq<I.Fn>, b: Board, entry: nat, base: Word, args: seq<Word>, mem: I.Memory)
    requires |b.text| < TWO64 && entry < |fns| && b.lo <= base && base + 16 + 8 * StackArgs(|args|) <= b.hi
    requires forall a :: a in mem ==> !InStack(b, a)
    ensures
      var c := FirstCpu(fns, b, entry, base, args, mem);
      Incoming(c.(regs := c.regs.(rbp := base)), base, args)
  {
    hide FirstMemory, FirstWord;
    var c := FirstCpu(fns, b, entry, base, args, mem);
    forall j | 6 <= j < |args|
      ensures WordAt(c.mem, base + 16 + 8 * (j - 6), args[j])
    {
      var a: Word := base + 16 + 8 * (j - 6);
      StackWord(b, |b.text|, base, args, mem, a);
      ArgWord(|b.text|, base, args, j);
    }
  }

  /** With room for the frame below the base and for the arguments above, the processor is ready. */
  lemma FirstBooted(fns: seq<I.Fn>, b: Board, entry: nat, base: Word, args: seq<Word>, mem: I.Memory)
    requires |b.text| < TWO64 && entry < |fns| && |args| == fns[entry].params
    requires base % 16 == 0 && base - FrameSize(fns[entry]) >= b.lo && base + 16 + 8 * StackArgs(|args|) <= b.hi
    requires forall a :: a in mem ==> !InStack(b, a)
    ensures Booted(fns, b, FirstCpu(fns, b, entry, base, args, mem), entry, base, args, mem)
  {
    hide FrameSize, FirstWord, Incoming;
    var c := FirstCpu(fns, b, entry, base, args, mem);
    FirstIncoming(fns, b, entry, base, args, mem);
    assert FirstWord(|b.text|, base, args, base + 8) == |b.text| by { ReturnWord(|b.text|, base, args); }
    StackWord(b, |b.text|, base, args, mem, base + 8);
  }

  lemma ReturnWord(end: Word, base: Word, args: seq<Word>)
    requires base + 8 < TWO64
    ensures FirstWord(end, base, args, base + 8) == end
  {
  }

  // ----- the board -----

  function PlaceOf(names: seq<string>, g: string): (k: nat)
    ensures k <= |names|
    ensures g in names ==> k < |names| && names[k] == g
  {
    if names == [] then 0
    else if names[0] == g then 0
    else 1 + PlaceOf(names[1..], g)
  }

  function PlaceAddress(p: Program, names: seq<string>, g: string): Word
    requires forall x :: x in names ==> x in p.globals
  {
    Wrap(TWO63 + 8 * GA.Reserved(p, names, PlaceOf(names, g)))
  }

  /** The stack in the lower half of memory, the globals one after another from the middle on. */
  function FirstBoard(p: Program, fns: seq<I.Fn>, env: I.Env, names: seq<string>): Board
    requires forall g :: g in names ==> g in p.globals
  {
    Board(Text(fns), env,
          (g: string) => PlaceAddress(p, names, g),
          (n: nat) => 0, 0, TWO63,
          (tr: seq<I.Event>, r: Reg) => 0, (tr: seq<I.Event>, a: Word) => 0)
  }

  lemma FirstPlace(p: Program, fns: seq<I.Fn>, env: I.Env, names: seq<string>, k: nat)
    requires Distinct(names) && (forall g :: g in names ==> g in p.globals) && k < |names|
    ensures WorldOf(fns, FirstBoard(p, fns, env, names)).lay.global(names[k])
            == Wrap(TWO63 + 8 * GA.Reserved(p, names, k))
  {
    hide GA.Reserved, Wrap, Text, PlaceOf;
    assert PlaceOf(names, names[k]) == k;
  }

  lemma FirstAssembled(p: Program, fns: seq<I.Fn>, env: I.Env, names: seq<string>)
    requires Distinct(names) && (forall g :: g in names <==> g in p.globals)
    requires 8 * GA.Reserved(p, names, |names|) <= TWO63
    ensures GA.Assembled(p, WorldOf(fns, FirstBoard(p, fns, env, names)), names, TWO63)
  {
    hide GA.Reserved, Wrap, Text;
    var w := WorldOf(fns, FirstBoard(p, fns, env, names));
    forall k | 0 <= k < |names|
      ensures w.lay.global(names[k]) == Wrap(TWO63 + 8 * GA.Reserved(p, names, k))
    {
      FirstPlace(p, fns, env, names, k);
    }
  }

  /** The globals of an assembled section stand from its start on. */
  lemma GlobalsFrom(p: Program, w: I.World, names: seq<string>, start: nat, a: Word)
    requires GA.Assembled(p, w, names, start) && a in S.GlobalMemory(p, w)
    ensures a >= start
  {
    hide GA.Reserved, S.GlobalSize, Wrap, S.GlobalWord;
    var g, i :| g in p.globals && 0 <= i < S.GlobalSize(p.globals[g]) && a == S.GlobalWord(w, g, i);
    var k :| 0 <= k < |names| && names[k] == g;
    GA.WordPlace(p, w, names, start, k, i);
  }

  /** Every lowered program that fits into memory can be started on some processor, with its globals
      apart: the hypotheses of `CompilerCorrect` can be met. */
  lemma CanStart(p: Program, fns: seq<I.Fn>, env: I.Env, names: seq<string>, entry: nat, args: seq<Word>)
      returns (b: Board, c: Cpu, base: Word)
    requires |Text(fns)| < TWO64 && entry < |fns| && |args| == fns[entry].params
    requires Distinct(names) && (forall g :: g in names <==> g in p.globals)
    requires 8 * GA.Reserved(p, names, |names|) <= TWO63
    requires FrameSize(fns[entry]) + 16 + 8 * StackArgs(|args|) <= TWO63
    ensures b.text == Text(fns) && b.env == env && GA.Separate(p, WorldOf(fns, b))
    ensures Booted(fns, b, c, entry, base, args, S.GlobalMemory(p, WorldOf(fns, b)))
  {
    hide GA.Reserved, Text, FrameSize, S.GlobalMemory, GA.Separate, GA.Assembled, Booted;
    b := FirstBoard(p, fns, env, names);
    base := FrameSize(fns[entry]);
    var w := WorldOf(fns, b);
    FirstAssembled(p, fns, env, names);
    GA.AssembledSeparate(p, w, names, TWO63);
    forall a | a in S.GlobalMemory(p, w)
      ensures !InStack(b, a)
    {
      GlobalsFrom(p, w, names, TWO63, a);
    }
    FrameHolds(fns[entry]);
    FirstBooted(fns, b, entry, base, args, S.GlobalMemory(p, w));
    c := FirstCpu(fns, b, entry, base, args, S.GlobalMemory(p, w));
  }
}
