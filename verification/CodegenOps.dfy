/** Each operation's expansion computes what the IR operation means. */
module CodegenOps {
  import opened Words
  import opened X86
  import opened Codegen
  import opened Arithmetic

  /** The word of temp t in the activation at `base`. */
  function Slot(base: Word, t: nat): Word {
    Wrap(base - 8 * t)
  }

  /** rbp is at `base`, temps 1..maxT have words, and those in T hold their values. */
  ghost predicate Locals(c: Cpu, base: Word, maxT: nat, T: map<nat, Word>) {
    && c.regs.rbp == base
    && (forall t: nat :: 1 <= t <= maxT ==> Slot(base, t) in c.mem)
    && (forall t: nat :: t in T ==> 1 <= t <= maxT && Slot(base, t) in c.mem && c.mem[Slot(base, t)] == T[t])
  }

  lemma LdDo(b: Board, c: Cpu, base: Word, maxT: nat, T: map<nat, Word>, r: Reg, t: nat)
    requires Locals(c, base, maxT, T) && t in T
    ensures Do(b, Ld(r, t), c) == Some(Reg1(c, r, T[t]))
  {
  }

  lemma StDo(b: Board, c: Cpu, base: Word, t: nat, r: Reg)
    requires c.regs.rbp == base && Slot(base, t) in c.mem
    ensures Do(b, St(t, r), c) == Some(c.(pc := c.pc + 1, mem := c.mem[Slot(base, t) := c.regs.Get(r)]))
  {
  }

  /** `n` instructions later, word `a` of memory is `v` and everything the frame relies on is
      as before. */
  ghost predicate Wrote(c: Cpu, c1: Cpu, n: nat, a: Word, v: Word) {
    && c1.pc == c.pc + n && c1.regs.rbp == c.regs.rbp && c1.regs.rsp == c.regs.rsp
    && c1.trace == c.trace && a in c.mem && c1.mem == c.mem[a := v]
  }

  /** `n` instructions later, register `r` is `v`; memory, stack and trace are as before. */
  ghost predicate Got(c: Cpu, c1: Cpu, n: nat, r: Reg, v: Word) {
    && c1.pc == c.pc + n && c1.regs.rbp == c.regs.rbp && c1.regs.rsp == c.regs.rsp
    && c1.trace == c.trace && c1.mem == c.mem && c1.regs.Get(r) == v
  }

  /** The straight-line code `code` ends, and `c1` is where. */
  ghost predicate CodeEnds(b: Board, code: seq<Item>, c: Cpu, c1: Cpu) {
    (forall x :: x in code ==> Straight(x)) && DoAll(b, code, c) == Some(c1)
  }

  lemma Ends1(b: Board, i: Item, c: Cpu, c1: Cpu)
    requires Straight(i) && Do(b, i, c) == Some(c1)
    ensures CodeEnds(b, [i], c, c1)
  {
    hide Do;
    assert [i] == [i] + [];
    DoCons(b, i, [], c);
  }

  lemma {:induction false} EndsSum(b: Board, x: seq<Item>, y: seq<Item>, c: Cpu, c1: Cpu, c2: Cpu)
    requires CodeEnds(b, x, c, c1) && CodeEnds(b, y, c1, c2)
    ensures CodeEnds(b, x + y, c, c2)
    decreases |x|
  {
    hide Do, Straight;
    if x == [] {
      assert x + y == y;
    } else {
      assert x == [x[0]] + x[1..] && x + y == [x[0]] + (x[1..] + y);
      var d := Do(b, x[0], c).value;
      EndsSum(b, x[1..], y, d, c1, c2);
      DoCons(b, x[0], x[1..] + y, c);
    }
  }

  // ----- operators -----

  lemma CoreAlu(b: Board, op: BinOp, c: Cpu) returns (c1: Cpu)
    requires op.Add? || op.Sub? || op.And? || op.Or? || op.Mul?
    ensures CodeEnds(b, Core(op), c, c1)
    ensures Got(c, c1, 1, RAX, Apply(op, c.regs.rax, c.regs.rcx).value)
  {
    hide BitAnd, WordOr, Wrap, Pow2, TruncDiv;
    ImulIsMul(c.regs.rax, c.regs.rcx);
    c1 := Do(b, Core(op)[0], c).value;
    Ends1(b, Core(op)[0], c, c1);
  }

  lemma CoreShift(b: Board, op: BinOp, c: Cpu) returns (c1: Cpu)
    requires op.Shl? || op.Shr?
    ensures CodeEnds(b, Core(op), c, c1)
    ensures Got(c, c1, 1, RAX, Apply(op, c.regs.rax, c.regs.rcx).value)
  {
    hide BitAnd, WordOr, Wrap, Pow2, TruncDiv;
    CountIs(c.regs.rcx);
    c1 := Do(b, Core(op)[0], c).value;
    Ends1(b, Core(op)[0], c, c1);
  }

  /** `cqo` takes the processor from c to c1, where `idiv` has no quotient. */
  ghost predicate Indivisible(b: Board, op: BinOp, c: Cpu, c1: Cpu) {
    && Core(op) == [Cqo, Idiv(RCX)] && CodeEnds(b, [Cqo], c, c1)
    && c1.pc == c.pc + 1 && c1.trace == c.trace && Divide(c1, c1.regs.rcx).None?
  }

  /** `cqo` extends the sign; then `idiv` has a quotient exactly where B has one. */
  lemma CqoDo(b: Board, x: Word, c: Cpu) returns (d: Cpu)
    requires x == c.regs.rax
    ensures CodeEnds(b, [Cqo], c, d) && d == Reg1(c, RDX, if x >= TWO63 then TWO64 - 1 else 0)
    ensures Divide(d, c.regs.rcx).Some? <==> Divides(x, c.regs.rcx)
    ensures Signed(d.regs.rdx) * TWO64 + x == Signed(x)
  {
    hide Pow2, TruncDiv;
    d := Reg1(c, RDX, if x >= TWO63 then TWO64 - 1 else 0);
    CqoExtends(x);
    Ends1(b, Cqo, c, d);
    if c.regs.rcx != 0 {
      DivideFits(x, c.regs.rcx);
    }
  }

  /** Where the quotient does not exist, it is the `idiv` that fails. */
  lemma CoreDivide(b: Board, op: BinOp, c: Cpu) returns (c1: Cpu)
    requires op.Div? || op.Mod?
    ensures Apply(op, c.regs.rax, c.regs.rcx).Some? ==>
              CodeEnds(b, Core(op), c, c1) && Got(c, c1, 2, ResultReg(op), Apply(op, c.regs.rax, c.regs.rcx).value)
    ensures Apply(op, c.regs.rax, c.regs.rcx).None? ==> Indivisible(b, op, c, c1)
  {
    hide BitAnd, WordOr, Wrap, Pow2, TruncDiv, CodeEnds, Divides, Signed;
    var d := CqoDo(b, c.regs.rax, c);
    c1 := d;
    assert Core(op) == [Cqo] + [Idiv(RCX)];
    if Divide(d, c.regs.rcx).Some? {
      c1 := Divide(d, c.regs.rcx).value;
      Ends1(b, Idiv(RCX), d, c1);
      EndsSum(b, [Cqo], [Idiv(RCX)], c, d, c1);
    }
  }

  lemma CoreCompare(b: Board, op: BinOp, c: Cpu) returns (c1: Cpu)
    requires op.Eq? || op.Ne? || op.Gt? || op.Ge? || op.Lt? || op.Le?
    ensures CodeEnds(b, Core(op), c, c1)
    ensures Got(c, c1, 3, RAX, Apply(op, c.regs.rax, c.regs.rcx).value)
  {
    hide Do, Compare, Holds, Signed, CodeEnds;
    CompareDecides(c.regs.rax, c.regs.rcx);
    var cc := SetFor(op);
    var d := c.(pc := c.pc + 1, flags := Compare(c.regs.rax, c.regs.rcx));
    var v := FromBool(Holds(cc, d.flags));
    var e := SetAlDo(b, d, cc);
    CmpDo(b, c);
    c1 := Reg1(e, RAX, v);
    EndsThree(b, Cmp(RAX, RCX), SetAl(cc), MovzxAl, c, d, e, c1);
    assert Core(op) == [Cmp(RAX, RCX), SetAl(cc), MovzxAl];
  }

  lemma EndsThree(b: Board, x: Item, y: Item, z: Item, c: Cpu, d: Cpu, e: Cpu, f: Cpu)
    requires Straight(x) && Straight(y) && Straight(z)
    requires Do(b, x, c) == Some(d) && Do(b, y, d) == Some(e) && Do(b, z, e) == Some(f)
    ensures CodeEnds(b, [x, y, z], c, f)
  {
    hide Do, CodeEnds, Straight;
    Ends1(b, x, c, d);
    Ends1(b, y, d, e);
    Ends1(b, z, e, f);
    EndsSum(b, [x], [y], c, d, e);
    EndsSum(b, [x] + [y], [z], c, e, f);
    assert [x] + [y] + [z] == [x, y, z];
  }

  lemma CmpDo(b: Board, c: Cpu)
    ensures Do(b, Cmp(RAX, RCX), c) == Some(c.(pc := c.pc + 1, flags := Compare(c.regs.rax, c.regs.rcx)))
  {
    hide Compare;
  }

  /** `setcc al` changes the low byte only, and `movzx` keeps just that byte. */
  lemma SetAlDo(b: Board, d: Cpu, cc: Cond) returns (e: Cpu)
    requires d.flags.Known?
    ensures Do(b, SetAl(cc), d) == Some(e)
    ensures Do(b, MovzxAl, e) == Some(Reg1(e, RAX, FromBool(Holds(cc, d.flags))))
    ensures e == Reg1(d, RAX, e.regs.rax)
  {
    hide Holds;
    var v := FromBool(Holds(cc, d.flags));
    LowByte(d.regs.rax, v);
    e := Reg1(d, RAX, d.regs.rax - d.regs.rax % 256 + v);
  }

  lemma LowByte(a: Word, v: int)
    requires 0 <= v <= 1
    ensures 0 <= a - a % 256 + v < TWO64
    ensures (a - a % 256 + v) % 256 == v
  {
  }

  /** Every operator: the result register holds what B says, or the processor faults. */
  lemma CoreOk(b: Board, op: BinOp, c: Cpu) returns (c1: Cpu)
    ensures Apply(op, c.regs.rax, c.regs.rcx).Some? ==>
              && CodeEnds(b, Core(op), c, c1)
              && Got(c, c1, |Core(op)|, ResultReg(op), Apply(op, c.regs.rax, c.regs.rcx).value)
    ensures Apply(op, c.regs.rax, c.regs.rcx).None? ==> Indivisible(b, op, c, c1)
  {
    hide BitAnd, WordOr, Wrap, Pow2, TruncDiv, CodeEnds, DoAll, Signed, Indivisible;
    match op
    case Shl => c1 := CoreShift(b, op, c);
    case Shr => c1 := CoreShift(b, op, c);
    case Div => c1 := CoreDivide(b, op, c);
    case Mod => c1 := CoreDivide(b, op, c);
    case Add => c1 := CoreAlu(b, op, c);
    case Sub => c1 := CoreAlu(b, op, c);
    case And => c1 := CoreAlu(b, op, c);
    case Or => c1 := CoreAlu(b, op, c);
    case Mul => c1 := CoreAlu(b, op, c);
    case _ => c1 := CoreCompare(b, op, c);
  }
}
