/** The part of an x86-64 machine that the generated code uses: a flat listing of
    instructions and labels, nine registers, three flags and word-granular memory. Calls of
    functions outside the listing follow the System V AMD64 ABI (sections 3.2.2 and 3.2.3). */
module X86 {
  import opened Words
  import I = Ir

  datatype Reg = RAX | RCX | RDX | RSI | RDI | R8 | R9 | RSP | RBP

  datatype Regs = Regs(rax: Word, rcx: Word, rdx: Word, rsi: Word, rdi: Word, r8: Word, r9: Word,
                       rsp: Word, rbp: Word)
  {
    function Get(r: Reg): Word {
      match r
      case RAX => rax
      case RCX => rcx
      case RDX => rdx
      case RSI => rsi
      case RDI => rdi
      case R8 => r8
      case R9 => r9
      case RSP => rsp
      case RBP => rbp
    }

    function Set(r: Reg, v: Word): Regs {
      match r
      case RAX => this.(rax := v)
      case RCX => this.(rcx := v)
      case RDX => this.(rdx := v)
      case RSI => this.(rsi := v)
      case RDI => this.(rdi := v)
      case R8 => this.(r8 := v)
      case R9 => this.(r9 := v)
      case RSP => this.(rsp := v)
      case RBP => this.(rbp := v)
    }
  }

  datatype AluOp = ADD | SUB | AND | OR | IMUL

  datatype Cond = SetE | SetNE | SetG | SetGE | SetL | SetLE

  /** What a comparison leaves behind; nothing is assumed of them after other arithmetic. */
  datatype Flags = Unknown | Known(zf: bool, sf: bool, of: bool)

  datatype Item =
    | Global(name: string)                 // name:
    | Local(fn: string, id: nat)           // .Lid: below the label fn
    | MovImm(r: Reg, imm: Word)            // mov r, imm
    | MovReg(d: Reg, s: Reg)               // mov d, s
    | MovLoad(r: Reg, base: Reg, disp: int)  // mov r, [base + disp]
    | MovStore(base: Reg, disp: int, r: Reg) // mov [base + disp], r
    | LoadVar(r: Reg, name: string)        // mov r, [rel var_name]
    | StoreVar(name: string, r: Reg)       // mov [rel var_name], r
    | Lea(r: Reg, base: Reg, disp: int)    // lea r, [base + disp]
    | LeaVar(r: Reg, name: string)         // lea r, [rel var_name]
    | LeaData(r: Reg, str: nat)            // lea r, [rel __ro_data_str]
    | NegReg(r: Reg)                       // neg r
    | Alu(op: AluOp, d: Reg, s: Reg)       // op d, s
    | Cqo
    | Idiv(r: Reg)
    | ShlCl(r: Reg)                        // shl r, cl
    | SarCl(r: Reg)                        // sar r, cl
    | Cmp(a: Reg, b: Reg)
    | TestSelf(r: Reg)                     // test r, r
    | SetAl(cc: Cond)                      // setcc al
    | MovzxAl                              // movzx rax, al
    | XorEax                               // xor eax, eax
    | SubRsp(n: nat)
    | AddRsp(n: nat)
    | Push(r: Reg)
    | Leave
    | Ret
    | Call(name: string)
    | Jmp(fn: string, id: nat)
    | Jnz(fn: string, id: nat)

  /** The listing and everything around it. The stack is the words in [lo, hi). After a call
      leaves the program, `junk` is what it left in the scratch registers and in the part of
      the stack that belongs to the callee. */
  datatype Board = Board(
    text: seq<Item>,
    env: I.Env,
    variable: string -> Word,
    data: nat -> Word,
    lo: Word,
    hi: Word,
    scratch: (seq<I.Event>, Reg) -> Word,
    junk: (seq<I.Event>, Word) -> Word)

  datatype Cpu = Cpu(pc: nat, regs: Regs, flags: Flags, mem: map<Word, Word>, trace: seq<I.Event>)

  datatype State = On(cpu: Cpu) | Off(value: Word, mem: map<Word, Word>, trace: seq<I.Event>) | Trap

  /** Where an argument travels. */
  function ArgReg(i: nat): Reg {
    match i
    case 0 => RDI
    case 1 => RSI
    case 2 => RDX
    case 3 => RCX
    case 4 => R8
    case _ => R9
  }

  function FindItem(text: seq<Item>, x: Item): (r: nat)
    ensures r <= |text|
    ensures r < |text| ==> text[r] == x
    ensures forall i :: 0 <= i < r ==> text[i] != x
  {
    if text == [] then 0
    else if text[0] == x then 0
    else
      var r := FindItem(text[1..], x);
      assert forall i :: 1 <= i < 1 + r ==> text[i] == text[1..][i - 1];
      1 + r
  }

  function Compare(a: Word, b: Word): Flags {
    var d := Wrap(a - b);
    Known(a == b, d >= TWO63, (Signed(a) < 0) != (Signed(b) < 0) && (Signed(d) < 0) != (Signed(a) < 0))
  }

  function Holds(cc: Cond, f: Flags): bool
    requires f.Known?
  {
    match cc
    case SetE => f.zf
    case SetNE => !f.zf
    case SetG => !f.zf && f.sf == f.of
    case SetGE => f.sf == f.of
    case SetL => f.sf != f.of
    case SetLE => f.zf || f.sf != f.of
  }

  function AluResult(op: AluOp, a: Word, b: Word): Word {
    match op
    case ADD => Wrap(a + b)
    case SUB => Wrap(a - b)
    case AND => BitAnd(a, b)
    case OR => WordOr(a, b)
    case IMUL => Wrap(Signed(a) * Signed(b))
  }

  function Reg1(c: Cpu, r: Reg, v: Word): Cpu {
    c.(pc := c.pc + 1, regs := c.regs.Set(r, v))
  }

  function Store1(c: Cpu, a: Word, v: Word): Option<Cpu> {
    if a in c.mem then Some(c.(pc := c.pc + 1, mem := c.mem[a := v])) else None
  }

  function Load1(c: Cpu, r: Reg, a: Word): Option<Cpu> {
    if a in c.mem then Some(Reg1(c, r, c.mem[a])) else None
  }

  /** The 128-bit division of rdx:rax. */
  function Divide(c: Cpu, by_: Word): Option<Cpu> {
    var n := Signed(c.regs.rdx) * TWO64 + c.regs.rax;
    var d := Signed(by_);
    if d == 0 then None
    else
      var q := TruncDiv(n, d);
      if -TWO63 <= q < TWO63 then
        Some(c.(pc := c.pc + 1, regs := c.regs.(rax := Wrap(q), rdx := Wrap(n - d * q)), flags := Unknown))
      else None
  }

  predicate Straight(i: Item) {
    !i.Ret? && !i.Call? && !i.Jmp? && !i.Jnz?
  }

  /** One instruction that goes on to the next; `None` is an exception of the processor. */
  function Do(b: Board, i: Item, c: Cpu): Option<Cpu>
    requires Straight(i)
  {
    var R := c.regs;
    match i
    case Global(_) => Some(c.(pc := c.pc + 1))
    case Local(_, _) => Some(c.(pc := c.pc + 1))
    case MovImm(r, n) => Some(Reg1(c, r, n))
    case MovReg(d, s) => Some(Reg1(c, d, R.Get(s)))
    case MovLoad(r, base, disp) => Load1(c, r, Wrap(R.Get(base) + disp))
    case MovStore(base, disp, r) => Store1(c, Wrap(R.Get(base) + disp), R.Get(r))
    case LoadVar(r, name) => Load1(c, r, b.variable(name))
    case StoreVar(name, r) => Store1(c, b.variable(name), R.Get(r))
    case Lea(r, base, disp) => Some(Reg1(c, r, Wrap(R.Get(base) + disp)))
    case LeaVar(r, name) => Some(Reg1(c, r, b.variable(name)))
    case LeaData(r, n) => Some(Reg1(c, r, b.data(n)))
    case NegReg(r) => Some(Reg1(c, r, Negate(R.Get(r))).(flags := Unknown))
    case Alu(op, d, s) => Some(Reg1(c, d, AluResult(op, R.Get(d), R.Get(s))).(flags := Unknown))
    case Cqo => Some(Reg1(c, RDX, if R.rax >= TWO63 then TWO64 - 1 else 0))
    case Idiv(r) => Divide(c, R.Get(r))
    case ShlCl(r) => Some(Reg1(c, r, Wrap(R.Get(r) * Pow2(R.rcx % 256 % 64))).(flags := Unknown))
    case SarCl(r) => Some(Reg1(c, r, Wrap(Signed(R.Get(r)) / Pow2(R.rcx % 256 % 64))).(flags := Unknown))
    case Cmp(x, y) => Some(c.(pc := c.pc + 1, flags := Compare(R.Get(x), R.Get(y))))
    case TestSelf(r) =>
      Some(c.(pc := c.pc + 1, flags := Known(R.Get(r) == 0, R.Get(r) >= TWO63, false)))
    case SetAl(cc) =>
      if c.flags.Unknown? then None
      else Some(Reg1(c, RAX, R.rax - R.rax % 256 + FromBool(Holds(cc, c.flags))))
    case MovzxAl => Some(Reg1(c, RAX, R.rax % 256))
    case XorEax => Some(Reg1(c, RAX, 0).(flags := Unknown))
    case SubRsp(n) => Some(Reg1(c, RSP, Wrap(R.rsp - n)).(flags := Unknown))
    case AddRsp(n) => Some(Reg1(c, RSP, Wrap(R.rsp + n)).(flags := Unknown))
    case Push(r) =>
      (match Store1(c, Wrap(R.rsp - 8), R.Get(r))
       case None => None
       case Some(c1) => Some(c1.(regs := R.(rsp := Wrap(R.rsp - 8)))))
    case Leave =>
      if R.rbp in c.mem
      then Some(c.(pc := c.pc + 1, regs := R.(rsp := Wrap(R.rbp + 8), rbp := c.mem[R.rbp])))
      else None
  }

  function Goto(b: Board, c: Cpu, x: Item): State {
    var p := FindItem(b.text, x);
    if p < |b.text| then On(c.(pc := p)) else Trap
  }

  /** The arguments of an outside call as the ABI places them: six registers, then the stack. */
  function AbiArgs(c: Cpu, n: nat): Option<seq<Word>> {
    if n == 0 then Some([])
    else match AbiArgs(c, n - 1)
      case None => None
      case Some(vs) =>
        if n <= 6 then Some(vs + [c.regs.Get(ArgReg(n - 1))])
        else
          var a := Wrap(c.regs.rsp + 8 * (n - 7));
          if a in c.mem then Some(vs + [c.mem[a]]) else None
  }

  /** The stack words that belong to an outside callee: its stack arguments and all below. */
  function Scribbled(b: Board, mem: map<Word, Word>, tr: seq<I.Event>, top: int): map<Word, Word> {
    map a | a in mem :: if b.lo <= a < top then b.junk(tr, a) else mem[a]
  }

  function StackArgs(n: nat): nat {
    if n > 6 then n - 6 else 0
  }

  /** A call out of the program: it sees its arguments, answers in rax, and preserves rsp, rbp
      and the caller's part of the stack. The stack pointer must be a multiple of 16. */
  function CallOut(b: Board, c: Cpu, name: string): State {
    var n := b.env.arity(name);
    match AbiArgs(c, n)
    case None => Trap
    case Some(vs) =>
      if Wrap(c.regs.rsp - 8) !in c.mem then Trap
      else
        var v := b.env.answer(c.trace, name, vs);
        var tr := c.trace + [I.Event(name, vs, v)];
        var s := (r: Reg) => b.scratch(tr, r);
        var regs := Regs(v, s(RCX), s(RDX), s(RSI), s(RDI), s(R8), s(R9), c.regs.rsp, c.regs.rbp);
        On(Cpu(c.pc + 1, regs, Unknown, Scribbled(b, c.mem, tr, c.regs.rsp + 8 * StackArgs(n)), tr))
  }

  function Step(b: Board, s: State): State {
    if !s.On? then s
    else
      var c: Cpu := s.cpu;
      if c.pc == |b.text| then Off(c.regs.rax, c.mem, c.trace)
      else if c.pc > |b.text| then Trap
      else match b.text[c.pc]
        case Jmp(fn, id) => Goto(b, c, Local(fn, id))
        case Jnz(fn, id) =>
          if c.flags.Unknown? then Trap
          else if !c.flags.zf then Goto(b, c, Local(fn, id))
          else On(c.(pc := c.pc + 1))
        case Ret =>
          if c.regs.rsp in c.mem
          then On(c.(pc := c.mem[c.regs.rsp], regs := c.regs.(rsp := Wrap(c.regs.rsp + 8))))
          else Trap
        case Call(name) =>
          if c.regs.rsp % 16 != 0 then Trap
          else if FindItem(b.text, Global(name)) == |b.text| then CallOut(b, c, name)
          else
            (match Store1(c, Wrap(c.regs.rsp - 8), Wrap(c.pc + 1))
             case None => Trap
             case Some(c1) => Goto(b, c1.(regs := c.regs.(rsp := Wrap(c.regs.rsp - 8))), Global(name)))
        case i =>
          match Do(b, i, c)
          case None => Trap
          case Some(c1) => On(c1)
  }

  function Run(b: Board, s: State, n: nat): State
    decreases n
  {
    if n == 0 then s else Run(b, Step(b, s), n - 1)
  }

  // ----- reachability -----

  ghost predicate Reaches(b: Board, s: State, t: State, n: nat) {
    exists k: nat :: k >= n && Run(b, s, k) == t
  }

  lemma {:induction false} RunSplit(b: Board, s: State, i: nat, j: nat)
    ensures Run(b, s, i + j) == Run(b, Run(b, s, i), j)
    decreases i
  {
    if i != 0 {
      RunSplit(b, Step(b, s), i - 1, j);
    }
  }

  lemma ReachesSelf(b: Board, s: State)
    ensures Reaches(b, s, s, 0)
  {
    assert Run(b, s, 0) == s;
  }

  lemma ReachesTrans(b: Board, s: State, t: State, u: State, i: nat, j: nat)
    requires Reaches(b, s, t, i) && Reaches(b, t, u, j)
    ensures Reaches(b, s, u, i + j)
  {
    var x: nat :| x >= i && Run(b, s, x) == t;
    var y: nat :| y >= j && Run(b, t, y) == u;
    RunSplit(b, s, x, y);
    assert Run(b, s, x + y) == u;
  }

  lemma ReachesStep(b: Board, s: State)
    ensures Reaches(b, s, Step(b, s), 1)
  {
    assert Run(b, s, 1) == Step(b, s) by {
      assert Run(b, Step(b, s), 0) == Step(b, s);
    }
  }

  /** One step, then the rest. */
  lemma Stepped(b: Board, s: State, t: State, i: nat)
    requires Reaches(b, s, t, i)
    ensures Reaches(b, s, Step(b, t), i + 1)
  {
    ReachesStep(b, t);
    ReachesTrans(b, s, t, Step(b, t), i, 1);
  }

  // ----- straight-line code -----

  function DoAll(b: Board, code: seq<Item>, c: Cpu): Option<Cpu>
    requires forall x :: x in code ==> Straight(x)
  {
    if code == [] then Some(c)
    else match Do(b, code[0], c)
      case None => None
      case Some(c1) => DoAll(b, code[1..], c1)
  }

  predicate TextAt(text: seq<Item>, pc: nat, part: seq<Item>) {
    pc + |part| <= |text| && text[pc..pc + |part|] == part
  }

  lemma AtSplit(text: seq<Item>, pc: nat, a: seq<Item>, z: seq<Item>)
    requires TextAt(text, pc, a + z)
    ensures TextAt(text, pc, a) && TextAt(text, pc + |a|, z)
  {
    assert text[pc..pc + |a|] == (a + z)[..|a|];
    assert text[pc + |a|..pc + |a| + |z|] == (a + z)[|a|..];
  }

  lemma AtIndex(text: seq<Item>, pc: nat, part: seq<Item>, i: nat)
    requires TextAt(text, pc, part) && i < |part|
    ensures pc + i < |text| && text[pc + i] == part[i]
  {
    assert text[pc..pc + |part|][i] == part[i];
  }

  lemma DoStep(b: Board, c: Cpu)
    requires c.pc < |b.text| && Straight(b.text[c.pc])
    ensures Step(b, On(c)) == match Do(b, b.text[c.pc], c)
                              case None => Trap
                              case Some(c1) => On(c1)
  {
    hide Do;
  }

  lemma DoPc(b: Board, i: Item, c: Cpu)
    requires Straight(i) && Do(b, i, c).Some?
    ensures Do(b, i, c).value.pc == c.pc + 1
  {
  }

  /** Straight-line code at the program counter runs as `DoAll` says; where `DoAll` fails, the
      machine traps. */
  lemma {:induction false} RunStraight(b: Board, code: seq<Item>, c: Cpu)
    requires forall x :: x in code ==> Straight(x)
    requires TextAt(b.text, c.pc, code)
    ensures DoAll(b, code, c).Some? ==>
              Reaches(b, On(c), On(DoAll(b, code, c).value), |code|)
    ensures DoAll(b, code, c).None? ==> Reaches(b, On(c), Trap, 1)
    decreases |code|
  {
    hide Do, Step, Reaches;
    if code == [] {
      ReachesSelf(b, On(c));
    } else {
      AtIndex(b.text, c.pc, code, 0);
      assert code == [code[0]] + code[1..];
      AtSplit(b.text, c.pc, [code[0]], code[1..]);
      DoStep(b, c);
      ReachesStep(b, On(c));
      if Do(b, code[0], c).Some? {
        var c1 := Do(b, code[0], c).value;
        DoPc(b, code[0], c);
        RunStraight(b, code[1..], c1);
        if DoAll(b, code[1..], c1).Some? {
          ReachesTrans(b, On(c), On(c1), On(DoAll(b, code[1..], c1).value), 1, |code| - 1);
        } else {
          ReachesTrans(b, On(c), On(c1), Trap, 1, 1);
          ReachesLess(b, On(c), Trap, 2, 1);
        }
      }
    }
  }

  lemma ReachesLess(b: Board, s: State, t: State, i: nat, j: nat)
    requires Reaches(b, s, t, i) && j <= i
    ensures Reaches(b, s, t, j)
  {
    var k: nat :| k >= i && Run(b, s, k) == t;
  }

  lemma DoCons(b: Board, i: Item, code: seq<Item>, c: Cpu)
    requires Straight(i) && forall x :: x in code ==> Straight(x)
    ensures forall x :: x in [i] + code ==> Straight(x)
    ensures DoAll(b, [i] + code, c) == match Do(b, i, c)
                                       case None => None
                                       case Some(c1) => DoAll(b, code, c1)
  {
    hide Do;
    assert ([i] + code)[1..] == code;
  }
}
