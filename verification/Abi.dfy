/** Where the System V AMD64 ABI, section 3.2.3, puts the arguments of a call, register by register: what
    the processor's outside functions and the code of the program take as their arguments. */
module Abi {
  import opened Words
  import opened X86
  import opened EnterSimulation
  import opened BackEnd
  import opened CallSimulation
  import I = Ir

  /** Value i of a call: six registers, then the words from `stack` on. */
  predicate Travels(c: Cpu, stack: int, i: nat, v: Word) {
    if i == 0 then v == c.regs.rdi
    else if i == 1 then v == c.regs.rsi
    else if i == 2 then v == c.regs.rdx
    else if i == 3 then v == c.regs.rcx
    else if i == 4 then v == c.regs.r8
    else if i == 5 then v == c.regs.r9
    else
      var a := Wrap(stack + 8 * (i - 6));
      a in c.mem && c.mem[a] == v
  }

  /** An outside function that is called with n arguments takes them from there, the stack ones from rsp
      on. */
  lemma {:induction false} OutsideTakes(c: Cpu, n: nat, i: nat)
    requires AbiArgs(c, n).Some? && i < n
    ensures |AbiArgs(c, n).value| == n && Travels(c, c.regs.rsp, i, AbiArgs(c, n).value[i])
    decreases n
  {
    var before := AbiArgs(c, n - 1).value;
    if n > 1 {
      OutsideTakes(c, n - 1, if i < n - 1 then i else 0);
    }
    assert AbiArgs(c, n).value[..|before|] == before;
  }

  /** A program is started as if called: its stack arguments lie behind the return address. */
  lemma BootTakes(fns: seq<I.Fn>, b: Board, c: Cpu, entry: nat, base: Word, args: seq<Word>, mem: I.Memory, i: nat)
    requires Booted(fns, b, c, entry, base, args, mem) && i < |args|
    ensures Travels(c, c.regs.rsp + 8, i, args[i])
  {
    TakenAt(c.(regs := c.regs.(rbp := base)), base, args, i);
  }

  /** A function of the program finds its arguments there, the stack ones behind the saved rbp and the
      return address. */
  lemma TakenAt(c: Cpu, base: Word, vs: seq<Word>, i: nat)
    requires Incoming(c, base, vs) && i < |vs|
    ensures Travels(c, base + 16, i, vs[i])
  {
    if i >= 6 {
      var a := base + 16 + 8 * (i - 6);
      assert WordAt(c.mem, a, vs[i]);
      assert Wrap(a) == a;
    }
  }

  /** Whatever value an outside function leaves in the scratch registers and in its part of the stack is
      allowed for: a board on which it leaves v everywhere. What remains is rsp, rbp and all other memory,
      and rax has the answer. */
  lemma OutsideScribbles(b: Board, c: Cpu, name: string, v: Word)
    requires AbiArgs(c, b.env.arity(name)).Some? && Wrap(c.regs.rsp - 8) in c.mem
    ensures
      var n := b.env.arity(name);
      var vs := AbiArgs(c, n).value;
      var worst := b.(scratch := (tr: seq<I.Event>, r: Reg) => v, junk := (tr: seq<I.Event>, a: Word) => v);
      var s := CallOut(worst, c, name);
      var theirs := c.regs.rsp + if n > 6 then 8 * (n - 6) else 0;
      && s.On? && s.cpu.pc == c.pc + 1 && s.cpu.flags.Unknown?
      && s.cpu.regs == Regs(b.env.answer(c.trace, name, vs), v, v, v, v, v, v, c.regs.rsp, c.regs.rbp)
      && s.cpu.trace == c.trace + [I.Event(name, vs, b.env.answer(c.trace, name, vs))]
      && s.cpu.mem.Keys == c.mem.Keys
      && forall a :: a in c.mem ==> s.cpu.mem[a] == if b.lo <= a < theirs then v else c.mem[a]
  {
  }
}
