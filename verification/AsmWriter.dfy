/** src/amd64.c in its own form: one pass over a function to size its frame, one to write it.
    Every method is proved to write what the functions of `Codegen` say. */
module AsmWriter {
  import opened Words
  import I = Ir
  import opened X86
  import C = Codegen

  /** The highest temp and the number of cells. */
  method Measure(fn: I.Fn) returns (maxT: nat, cells: nat)
    ensures maxT == C.TopTemp(fn) && cells == I.Allocs(fn.code)
  {
    hide C.Dest;
    maxT, cells := fn.params, 0;
    assert fn.code[..0] == [];
    for i := 0 to |fn.code|
      invariant maxT == C.MaxTemp(fn.params, fn.code[..i]) && cells == I.Allocs(fn.code[..i])
    {
      assert fn.code[..i + 1][..i] == fn.code[..i];
      if C.Dest(fn.code[i]) > maxT {
        maxT := C.Dest(fn.code[i]);
      }
      if fn.code[i].Alloc? {
        cells := cells + 1;
      }
    }
    assert fn.code[..|fn.code|] == fn.code;
  }

  /** The output file. `allocI` numbers the cells of the function being written, from 1. */
  class Writer {
    var out: seq<Item>
    var allocI: nat

    constructor ()
      ensures out == []
    {
      out, allocI := [], 1;
    }

    method Put(x: Item)
      modifies this`out
      ensures out == old(out) + [x]
    {
      out := out + [x];
    }

    method Ld(r: Reg, t: nat)
      modifies this`out
      ensures out == old(out) + [C.Ld(r, t)]
    {
      Put(MovLoad(r, RBP, -8 * t));
    }

    method St(t: nat, r: Reg)
      modifies this`out
      ensures out == old(out) + [C.St(t, r)]
    {
      Put(MovStore(RBP, -8 * t, r));
    }

    method PutBin(op: BinOp, d: nat, a: nat, b: nat)
      modifies this`out
      ensures out == old(out) + ([C.Ld(RAX, a), C.Ld(RCX, b)] + C.Core(op) + [C.St(d, C.ResultReg(op))])
    {
      hide C.Ld, C.St, C.SetFor;
      Ld(RAX, a);
      Ld(RCX, b);
      match op {
      case Add => Put(Alu(ADD, RAX, RCX));
      case Sub => Put(Alu(SUB, RAX, RCX));
      case And => Put(Alu(AND, RAX, RCX));
      case Or => Put(Alu(OR, RAX, RCX));
      case Mul => Put(Alu(IMUL, RAX, RCX));
      case Div =>
        Put(Cqo);
        Put(Idiv(RCX));
      case Mod =>
        Put(Cqo);
        Put(Idiv(RCX));
      case Shl => Put(ShlCl(RAX));
      case Shr => Put(SarCl(RAX));
      case _ => PutCompare(op);
      }
      assert out == old(out) + [C.Ld(RAX, a)] + [C.Ld(RCX, b)] + C.Core(op);
      St(d, C.ResultReg(op));
      BinIs(old(out), C.Ld(RAX, a), C.Ld(RCX, b), C.Core(op), C.St(d, C.ResultReg(op)));
    }

    method PutCompare(op: BinOp)
      requires op.Eq? || op.Ne? || op.Gt? || op.Ge? || op.Lt? || op.Le?
      modifies this`out
      ensures out == old(out) + [Cmp(RAX, RCX), SetAl(C.SetFor(op)), MovzxAl]
    {
      Put(Cmp(RAX, RCX));
      Put(SetAl(C.SetFor(op)));
      Put(MovzxAl);
    }

    /** One operation; an `alloc` takes the next cell. */
    method AsmOp(i: I.Instr, maxT: nat)
      requires allocI >= 1
      modifies this
      ensures out == old(out) + C.AsmOp(i, old(allocI) - 1, maxT)
      ensures allocI == old(allocI) + (if i.Alloc? then 1 else 0)
    {
      hide C.Ld, C.St, C.Core;
      match i
      case Const(d, n) =>
        Put(MovImm(RAX, n));
        St(d, RAX);
      case Data(d, n) =>
        Put(LeaData(RAX, n));
        St(d, RAX);
      case Alloc(d) =>
        Put(X86.Lea(RAX, RBP, -8 * (maxT + allocI)));
        allocI := allocI + 1;
        St(d, RAX);
      case Address(d, a) =>
        Ld(RAX, a);
        St(d, RAX);
      case Load(d, a) =>
        Ld(RAX, a);
        Put(MovLoad(RAX, RAX, 0));
        St(d, RAX);
      case Store(a, v) =>
        Ld(RAX, v);
        Ld(RCX, a);
        Put(MovStore(RCX, 0, RAX));
      case GlobalLoad(d, g) =>
        Put(LoadVar(RAX, g));
        St(d, RAX);
      case GlobalStore(g, v) =>
        Ld(RAX, v);
        Put(StoreVar(g, RAX));
      case GlobalAddr(d, g) =>
        Put(LeaVar(RAX, g));
        St(d, RAX);
      case Neg(d, a) =>
        Ld(RAX, a);
        Put(NegReg(RAX));
        St(d, RAX);
      case Bin(op, d, a, b) => PutBin(op, d, a, b);
      case _ =>
    }

    /** Padding, stack arguments from the last down, register arguments, the call, cleaning up. */
    method AsmCall(d: nat, name: string, args: seq<nat>)
      modifies this`out
      ensures out == old(out) + C.AsmCall(d, name, args)
    {
      hide C.Ld, C.St, C.Pushes, C.Loads, ArgReg;
      var argc := |args|;
      var stackArgs := if argc > 6 then argc - 6 else 0;
      var pad := if stackArgs % 2 != 0 then 1 else 0;
      var padding: seq<Item> := if pad == 1 then [SubRsp(8)] else [];
      if pad != 0 {
        Put(SubRsp(8));
      }
      PutPushes(args);
      PutLoads(args);
      Put(XorEax);
      Put(Item.Call(name));
      if stackArgs + pad != 0 {
        Put(AddRsp((stackArgs + pad) * 8));
      }
      St(d, RAX);
      assert C.Pad(argc) == pad && StackArgs(argc) == stackArgs;
      CallIs(old(out), padding, d, name, args);
    }

    method PutPushes(args: seq<nat>)
      modifies this`out
      ensures out == old(out) + C.Pushes(args, |args|)
    {
      hide C.Ld;
      var i := |args|;
      while i > 6
        invariant 0 <= i <= |args|
        invariant out + C.Pushes(args, i) == old(out) + C.Pushes(args, |args|)
        decreases i
      {
        Ld(RAX, args[i - 1]);
        Put(Push(RAX));
        PushesMore(args, i);
        i := i - 1;
      }
    }

    method PutLoads(args: seq<nat>)
      modifies this`out
      ensures out == old(out) + C.Loads(args, C.RegArgs(|args|))
    {
      hide C.Ld, ArgReg;
      var i := 0;
      while i < |args| && i < 6
        invariant i <= C.RegArgs(|args|)
        invariant out == old(out) + C.Loads(args, i)
      {
        Ld(ArgReg(i), args[i]);
        i := i + 1;
      }
    }

    method AsmInstr(f: string, i: I.Instr, maxT: nat)
      requires allocI >= 1
      modifies this
      ensures out == old(out) + C.AsmInstr(f, i, old(allocI) - 1, maxT)
      ensures allocI == old(allocI) + (if i.Alloc? then 1 else 0)
    {
      hide C.Ld, C.St, C.AsmCall, C.AsmOp;
      match i
      case Label(id) => Put(Local(f, id));
      case Jump(id) => Put(Jmp(f, id));
      case Branch(t, yes, no) =>
        Ld(RAX, t);
        Put(TestSelf(RAX));
        Put(Jnz(f, yes));
        Put(Jmp(f, no));
      case Call(d, name, args) => AsmCall(d, name, args);
      case Return(t) =>
        if t != 0 {
          Ld(RAX, t);
        } else {
          Put(XorEax);
        }
        Put(Leave);
        Put(Ret);
      case _ => AsmOp(i, maxT);
    }

    method PutEntry(fn: I.Fn, frame: nat)
      requires frame == C.FrameSize(fn)
      modifies this`out
      ensures out == old(out) + C.Entry(fn)
    {
      hide C.FrameSize, C.St, ArgReg;
      Put(Global(fn.name));
      Put(Push(RBP));
      Put(MovReg(RBP, RSP));
      if frame != 0 {
        Put(SubRsp(frame));
      }
      var sub: seq<Item> := if frame != 0 then [SubRsp(frame)] else [];
      ghost var head := [Global(fn.name), Push(RBP), MovReg(RBP, RSP)] + sub;
      assert out == old(out) + head;
      for i := 0 to fn.params
        invariant out == old(out) + (head + C.Spills(i))
      {
        if i < 6 {
          St(i + 1, ArgReg(i));
        } else {
          Put(MovLoad(RAX, RBP, 16 + (i - 6) * 8));
          St(i + 1, RAX);
        }
        SpillsMore(old(out), head, i);
      }
    }

    method AsmFunction(fn: I.Fn)
      modifies this
      ensures out == old(out) + C.AsmFunction(fn)
    {
      hide C.AsmInstr, C.Entry, C.TopTemp;
      var maxT, cells := Measure(fn);
      var frame := (8 * (maxT + cells) + 15) / 16 * 16;
      PutEntry(fn, frame);
      allocI := 1;
      assert fn.code[..0] == [];
      for i := 0 to |fn.code|
        invariant allocI == I.Allocs(fn.code[..i]) + 1
        invariant out == old(out) + (C.Entry(fn) + C.Expand(fn, i))
      {
        AsmInstr(fn.name, fn.code[i], maxT);
        assert fn.code[..i + 1][..i] == fn.code[..i];
        ExpandMore(old(out), fn, i);
      }
    }

    method Dump(fns: seq<I.Fn>)
      modifies this
      ensures out == old(out) + C.Text(fns)
    {
      hide C.AsmFunction;
      for i := 0 to |fns|
        invariant out == old(out) + C.Listing(fns, i)
      {
        AsmFunction(fns[i]);
      }
    }
  }

  lemma CallIs(before: seq<Item>, padding: seq<Item>, d: nat, name: string, args: seq<nat>)
    requires padding == if C.Pad(|args|) == 1 then [SubRsp(8)] else []
    ensures
      var n := |args|;
      var k := StackArgs(n) + C.Pad(n);
      var after := if k != 0 then [AddRsp(8 * k)] else [];
      before + C.AsmCall(d, name, args)
      == before + padding + C.Pushes(args, n) + C.Loads(args, C.RegArgs(n)) + [XorEax] + [Item.Call(name)] + after
         + [C.St(d, RAX)]
  {
    hide C.Pushes, C.Loads, C.St, C.Pad, StackArgs;
    var n := |args|;
    var k := StackArgs(n) + C.Pad(n);
    var after: seq<Item> := if k != 0 then [AddRsp(8 * k)] else [];
    CallDef(padding, after, d, name, args);
    hide *;
    SixIs(before, padding, C.Pushes(args, n), C.Loads(args, C.RegArgs(n)), XorEax, Item.Call(name), after,
          C.St(d, RAX));
  }

  lemma CallDef(padding: seq<Item>, after: seq<Item>, d: nat, name: string, args: seq<nat>)
    requires padding == if C.Pad(|args|) == 1 then [SubRsp(8)] else []
    requires var k := StackArgs(|args|) + C.Pad(|args|); after == if k != 0 then [AddRsp(8 * k)] else []
    ensures C.AsmCall(d, name, args)
            == padding + C.Pushes(args, |args|) + C.Loads(args, C.RegArgs(|args|)) + [XorEax] + [Item.Call(name)]
               + (after + [C.St(d, RAX)])
  {
    hide C.Pushes, C.Loads, C.St, C.Pad, StackArgs;
  }

  lemma SixIs(before: seq<Item>, p: seq<Item>, u: seq<Item>, l: seq<Item>, x: Item, c: Item, a: seq<Item>, s: Item)
    ensures before + (p + u + l + [x] + [c] + (a + [s])) == before + p + u + l + [x] + [c] + a + [s]
  {
    var q := p + u + l + [x];
    Assoc(before, q + [c], a + [s]);
    Assoc(before, q, [c]);
    Assoc(before, p + u + l, [x]);
    Assoc(before, p + u, l);
    Assoc(before, p, u);
    Assoc(before + (q + [c]), a, [s]);
  }

  lemma Assoc(a: seq<Item>, b: seq<Item>, c: seq<Item>)
    ensures a + (b + c) == a + b + c
  {
  }

  lemma BinIs(before: seq<Item>, x: Item, y: Item, core: seq<Item>, z: Item)
    ensures before + ([x, y] + core + [z]) == before + [x] + [y] + core + [z]
  {
    assert [x, y] == [x] + [y];
    Assoc(before, [x, y] + core, [z]);
    Assoc(before, [x, y], core);
    Assoc(before, [x], [y]);
  }

  lemma PushesMore(args: seq<nat>, i: nat)
    requires 6 < i <= |args|
    ensures C.Pushes(args, i) == [C.Ld(RAX, args[i - 1])] + ([Push(RAX)] + C.Pushes(args, i - 1))
  {
    hide C.Ld;
    assert [C.Ld(RAX, args[i - 1]), Push(RAX)] == [C.Ld(RAX, args[i - 1])] + [Push(RAX)];
  }

  lemma SpillsMore(before: seq<Item>, head: seq<Item>, i: nat)
    ensures before + (head + C.Spills(i + 1))
            == before + (head + C.Spills(i))
               + (if i < 6 then [C.St(i + 1, ArgReg(i))] else [MovLoad(RAX, RBP, 16 + 8 * (i - 6)), C.St(i + 1, RAX)])
  {
    hide C.St, ArgReg;
  }

  lemma ExpandMore(before: seq<Item>, fn: I.Fn, i: nat)
    requires i < |fn.code|
    ensures before + (C.Entry(fn) + C.Expand(fn, i + 1))
            == before + (C.Entry(fn) + C.Expand(fn, i))
               + C.AsmInstr(fn.name, fn.code[i], I.Allocs(fn.code[..i]), C.TopTemp(fn))
  {
    hide C.AsmInstr, C.Entry, C.TopTemp;
  }
}
