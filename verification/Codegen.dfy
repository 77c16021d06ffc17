/** Code generation: what src/amd64.c writes, as functions from IR to a listing. */
module Codegen {
  import opened Words
  import I = Ir
  import opened X86

  /** Temp t lives in the word at rbp - 8t. */
  function Ld(r: Reg, t: nat): Item {
    MovLoad(r, RBP, -8 * t)
  }

  function St(t: nat, r: Reg): Item {
    MovStore(RBP, -8 * t, r)
  }

  function SetFor(op: BinOp): Cond
    requires op.Eq? || op.Ne? || op.Gt? || op.Ge? || op.Lt? || op.Le?
  {
    match op
    case Eq => SetE
    case Ne => SetNE
    case Gt => SetG
    case Ge => SetGE
    case Lt => SetL
    case Le => SetLE
  }

  /** The instructions between loading rax and rcx and storing the result. */
  function Core(op: BinOp): seq<Item> {
    match op
    case Add => [Alu(ADD, RAX, RCX)]
    case Sub => [Alu(SUB, RAX, RCX)]
    case And => [Alu(AND, RAX, RCX)]
    case Or => [Alu(OR, RAX, RCX)]
    case Mul => [Alu(IMUL, RAX, RCX)]
    case Div => [Cqo, Idiv(RCX)]
    case Mod => [Cqo, Idiv(RCX)]
    case Shl => [ShlCl(RAX)]
    case Shr => [SarCl(RAX)]
    case _ => [Cmp(RAX, RCX), SetAl(SetFor(op)), MovzxAl]
  }

  function ResultReg(op: BinOp): Reg {
    if op == BinOp.Mod then RDX else RAX
  }

  /** One operation. `k` counts the allocations before it in the text of its function. */
  function AsmOp(i: I.Instr, k: nat, maxT: nat): seq<Item> {
    match i
    case Const(d, n) => [MovImm(RAX, n), St(d, RAX)]
    case Data(d, n) => [LeaData(RAX, n), St(d, RAX)]
    case Alloc(d) => [X86.Lea(RAX, RBP, -8 * (maxT + k + 1)), St(d, RAX)]
    case Address(d, a) => [Ld(RAX, a), St(d, RAX)]
    case Load(d, a) => [Ld(RAX, a), MovLoad(RAX, RAX, 0), St(d, RAX)]
    case Store(a, v) => [Ld(RAX, v), Ld(RCX, a), MovStore(RCX, 0, RAX)]
    case GlobalLoad(d, g) => [LoadVar(RAX, g), St(d, RAX)]
    case GlobalStore(g, v) => [Ld(RAX, v), StoreVar(g, RAX)]
    case GlobalAddr(d, g) => [LeaVar(RAX, g), St(d, RAX)]
    case Neg(d, a) => [Ld(RAX, a), NegReg(RAX), St(d, RAX)]
    case Bin(op, d, a, b) => [Ld(RAX, a), Ld(RCX, b)] + Core(op) + [St(d, ResultReg(op))]
    case _ => []
  }

  /** Stack arguments, pushed from the last to the seventh. */
  function Pushes(args: seq<nat>, i: nat): seq<Item>
    requires i <= |args|
  {
    if i <= 6 then [] else [Ld(RAX, args[i - 1]), Push(RAX)] + Pushes(args, i - 1)
  }

  /** Register arguments, the first i of them. */
  function Loads(args: seq<nat>, i: nat): seq<Item>
    requires i <= |args|
  {
    if i == 0 then [] else Loads(args, i - 1) + [Ld(ArgReg(i - 1), args[i - 1])]
  }

  function RegArgs(n: nat): nat {
    if n < 6 then n else 6
  }

  /** A word of padding keeps the stack aligned under an odd number of pushes. */
  function Pad(n: nat): nat {
    StackArgs(n) % 2
  }

  function BeforeCall(args: seq<nat>): seq<Item> {
    (if Pad(|args|) == 1 then [SubRsp(8)] else [])
    + Pushes(args, |args|) + Loads(args, RegArgs(|args|)) + [XorEax]
  }

  function AfterCall(n: nat, d: nat): seq<Item> {
    (if StackArgs(n) + Pad(n) != 0 then [AddRsp(8 * (StackArgs(n) + Pad(n)))] else []) + [St(d, RAX)]
  }

  function AsmCall(d: nat, name: string, args: seq<nat>): seq<Item> {
    BeforeCall(args) + [Item.Call(name)] + AfterCall(|args|, d)
  }

  function AsmInstr(f: string, i: I.Instr, k: nat, maxT: nat): seq<Item> {
    match i
    case Label(id) => [Local(f, id)]
    case Jump(id) => [Jmp(f, id)]
    case Branch(t, yes, no) => [Ld(RAX, t), TestSelf(RAX), Jnz(f, yes), Jmp(f, no)]
    case Call(d, name, args) => AsmCall(d, name, args)
    case Return(t) => (if t != 0 then [Ld(RAX, t)] else [XorEax]) + [Leave, Ret]
    case _ => AsmOp(i, k, maxT)
  }

  // ----- the frame -----

  /** The temp an instruction sets; 0 for the instructions that set none. */
  function Dest(i: I.Instr): nat {
    match i
    case Const(d, _) => d
    case Data(d, _) => d
    case Alloc(d) => d
    case Address(d, _) => d
    case Load(d, _) => d
    case GlobalLoad(d, _) => d
    case GlobalAddr(d, _) => d
    case Neg(d, _) => d
    case Bin(_, d, _, _) => d
    case Call(d, _, _) => d
    case _ => 0
  }

  /** The highest temp among the parameters and the destinations. */
  function MaxTemp(n: nat, code: seq<I.Instr>): (m: nat)
    ensures n <= m
    ensures forall i :: 0 <= i < |code| ==> Dest(code[i]) <= m
    ensures m == n || exists i :: 0 <= i < |code| && Dest(code[i]) == m
  {
    if code == [] then n
    else
      var k := |code| - 1;
      var m := MaxTemp(n, code[..k]);
      if Dest(code[k]) > m then Dest(code[k])
      else
        assert m == n || exists i :: 0 <= i < k && Dest(code[i]) == m by {
          if m != n {
            var i :| 0 <= i < k && Dest(code[..k][i]) == m;
            assert code[i] == code[..k][i];
          }
        }
        m
  }

  function Round16(n: nat): (r: nat)
    ensures r % 16 == 0 && n <= r < n + 16
  {
    (n + 15) / 16 * 16
  }

  function TopTemp(fn: I.Fn): nat {
    MaxTemp(fn.params, fn.code)
  }

  /** Temps first, then the cells. */
  function FrameSize(fn: I.Fn): nat {
    Round16(8 * (TopTemp(fn) + I.Allocs(fn.code)))
  }

  // ----- functions -----

  /** Incoming arguments, the first i of them, into temps 1, 2, ... */
  function Spills(i: nat): seq<Item> {
    if i == 0 then []
    else Spills(i - 1)
         + (if i <= 6 then [St(i, ArgReg(i - 1))]
            else [MovLoad(RAX, RBP, 16 + 8 * (i - 7)), St(i, RAX)])
  }

  function Entry(fn: I.Fn): seq<Item> {
    [Global(fn.name), Push(RBP), MovReg(RBP, RSP)]
    + (if FrameSize(fn) != 0 then [SubRsp(FrameSize(fn))] else []) + Spills(fn.params)
  }

  /** The expansion of the first n instructions. */
  function Expand(fn: I.Fn, n: nat): seq<Item>
    requires n <= |fn.code|
  {
    if n == 0 then []
    else Expand(fn, n - 1)
         + AsmInstr(fn.name, fn.code[n - 1], I.Allocs(fn.code[..n - 1]), TopTemp(fn))
  }

  function AsmFunction(fn: I.Fn): seq<Item> {
    Entry(fn) + Expand(fn, |fn.code|)
  }

  /** The listing of the first n functions. */
  function Listing(fns: seq<I.Fn>, n: nat): seq<Item>
    requires n <= |fns|
  {
    if n == 0 then [] else Listing(fns, n - 1) + AsmFunction(fns[n - 1])
  }

  function Text(fns: seq<I.Fn>): seq<Item> {
    Listing(fns, |fns|)
  }

  // ----- where the generated code keeps things -----

  /** The base (rbp) of the activation that a call with n arguments creates. */
  function CalleeBase(base: int, frame: nat, n: nat): int {
    base - frame - 8 * (StackArgs(n) + Pad(n)) - 16
  }

  function FrameOf(fns: seq<I.Fn>, name: string): nat {
    var i := I.FindFn(fns, name);
    if i < 0 then 0 else FrameSize(fns[i])
  }

  function TopOf(fns: seq<I.Fn>, name: string): nat {
    var i := I.FindFn(fns, name);
    if i < 0 then 0 else TopTemp(fns[i])
  }

  function EnterAt(fns: seq<I.Fn>, lo: Word, f: string, base: Word, g: string, n: nat): Option<Word> {
    var b := CalleeBase(base, FrameOf(fns, f), n);
    if b - FrameOf(fns, g) >= lo then Some(b) else None
  }

  /** Room for the arguments and the return address. */
  function RoomAt(fns: seq<I.Fn>, lo: Word, f: string, base: Word, n: nat): bool {
    CalleeBase(base, FrameOf(fns, f), n) + 8 >= lo
  }

  function CellAt(fns: seq<I.Fn>, f: string, base: Word, k: nat): Word {
    Wrap(base - 8 * (TopOf(fns, f) + k + 1))
  }

  /** The layout that the generated code realises on a board. */
  function LayoutOf(fns: seq<I.Fn>, b: Board): I.Layout {
    I.Layout(
      (f: string, base: Word, g: string, n: nat) => EnterAt(fns, b.lo, f, base, g, n),
      (f: string, base: Word, n: nat) => RoomAt(fns, b.lo, f, base, n),
      (f: string, base: Word, k: nat) => CellAt(fns, f, base, k),
      b.variable,
      b.data)
  }
}
