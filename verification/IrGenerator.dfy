/** src/ir.c in its own form: counters and lists that are updated in place. Every method is proved
    to compute what the functions of `Lowering` say. `ok` is false where the program would leave
    through `ir_fatal`. */
module IrGenerator {
  import opened Words
  import opened Ast
  import opened Scopes
  import opened Ir
  import opened Lowering
  import opened Nodes
  import opened SymbolTables
  import opened ScopeChains
  import R = Statements
  import Tok = Tokens
  import Source

  /** Walks the scopes outwards: the first scope on the way from parent to parent that declares the
      name, `steps` parents away, or -1 where no scope on the way does. */
  method LookupSymbol(scopes: seq<Record>, sc: nat, name: string) returns (at: int, ghost steps: nat)
    requires Rooted(scopes) && sc < |scopes|
    ensures at == Ancestor(scopes, sc, steps) && (at >= 0 ==> name in scopes[at].symtab)
    ensures forall j :: 0 <= j < steps ==>
              Ancestor(scopes, sc, j) >= 0 && name !in scopes[Ancestor(scopes, sc, j)].symtab
    ensures at == OwnerOf(scopes, sc, name) && -1 <= at <= sc
    ensures Lookup(ChainOf(scopes, sc), name)
            == if at < 0 then Missing else if at == 0 then Global else Local(scopes[at].symtab[name].tempDest)
  {
    OwnerIs(scopes, sc, name);
    var curr: nat := sc;
    steps := 0;
    while curr != 0 && name !in scopes[curr].symtab
      invariant curr <= sc && OwnerOf(scopes, curr, name) == OwnerOf(scopes, sc, name)
      invariant curr == Ancestor(scopes, sc, steps)
      invariant forall j :: 0 <= j < steps ==>
                  Ancestor(scopes, sc, j) >= 0 && name !in scopes[Ancestor(scopes, sc, j)].symtab
      decreases curr
    {
      assert Hangs(scopes[curr], curr);
      AncestorNext(scopes, sc, steps);
      curr := scopes[curr].parent;
      steps := steps + 1;
    }
    at := curr;
    if name !in scopes[curr].symtab {
      AncestorNext(scopes, sc, steps);
      at, steps := -1, steps + 1;
    }
  }

  /** The storage of a name; the process ends where there is none yet. */
  method FindVariable(scopes: seq<Record>, sc: nat, name: string) returns (ok: bool, lv: LValue)
    requires Rooted(scopes) && sc < |scopes|
    ensures ok == LowerVar(ChainOf(scopes, sc), name, 0).LowLv?
    ensures ok ==> lv == LowerVar(ChainOf(scopes, sc), name, 0).out
  {
    var at, _ := LookupSymbol(scopes, sc, name);
    ok, lv := at >= 0, AtGlobal(name);
    if ok {
      var info := scopes[at].symtab[name];
      assert at > 0 ==> Hangs(scopes[at], at);
      match info.kind
      case AutoVar => ok, lv := info.tempDest != 0, AtTemp(info.tempDest);
      case GlobalVar => lv := AtGlobal(name);
      case _ =>
    }
  }

  ghost predicate InScope(scopes: seq<Record>, sc: nat) {
    Rooted(scopes) && sc < |scopes|
  }

  class IrGen {
    var tempC: nat
    var lableC: nat
    var lables: Table
    var scopes: seq<Record>  // the scopes that the parser has built
    var block: seq<Instr>

    constructor (built: seq<Record>)
      ensures tempC == 0 && lableC == 0 && block == [] && scopes == built
    {
      tempC, lableC, lables, scopes, block := 0, 0, map[], built, [];
    }

    /** The counters, the label table and the scope chain as seen from scope `sc`. */
    ghost function Cx(sc: nat): Context
      requires InScope(scopes, sc)
      reads this
    {
      Context(tempC, lableC, TempsOf(lables), ChainOf(scopes, sc))
    }

    method AddNode(x: Instr)
      modifies this`block
      ensures block == old(block) + [x]
    {
      block := block + [x];
    }

    method NextTemp() returns (t: nat)
      modifies this`tempC
      ensures t == old(tempC) + 1 && tempC == t
    {
      tempC := tempC + 1;
      t := tempC;
    }

    method NextLable() returns (id: nat)
      modifies this`lableC
      ensures id == old(lableC) + 1 && lableC == id
    {
      lableC := lableC + 1;
      id := lableC;
    }

    method EmitConst(n: Word) returns (t: nat)
      modifies this`tempC, this`block
      ensures t == old(tempC) + 1 && tempC == t && block == old(block) + [Const(t, n)]
    {
      t := NextTemp();
      AddNode(Const(t, n));
    }

    method EmitBin(op: BinOp, a: nat, b: nat) returns (t: nat)
      modifies this`tempC, this`block
      ensures t == old(tempC) + 1 && tempC == t && block == old(block) + [Bin(op, t, a, b)]
    {
      t := NextTemp();
      AddNode(Bin(op, t, a, b));
    }

    // ----- lvalues -----

    method LoadLvalue(lv: LValue) returns (t: nat)
      modifies this`tempC, this`block
      ensures t == old(tempC) + 1 && tempC == t && block == old(block) + [LoadLv(lv, t)]
    {
      t := NextTemp();
      match lv
      case AtGlobal(name) => AddNode(GlobalLoad(t, name));
      case AtTemp(a) => AddNode(Instr.Load(t, a));
    }

    method StoreLvalue(value: nat, lv: LValue)
      modifies this`block
      ensures block == old(block) + [StoreLv(lv, value)]
    {
      match lv
      case AtGlobal(name) => AddNode(GlobalStore(name, value));
      case AtTemp(a) => AddNode(Instr.Store(a, value));
    }

    method AddrOfLvalue(lv: LValue) returns (t: nat)
      modifies this`tempC, this`block
      ensures t == old(tempC) + 1 && tempC == t && block == old(block) + [AddressLv(lv, t)]
    {
      t := NextTemp();
      match lv
      case AtGlobal(name) => AddNode(GlobalAddr(t, name));
      case AtTemp(a) => AddNode(Instr.Address(t, a));
    }

    method IrLvalue(e: Expr, sc: nat) returns (ok: bool, lv: LValue)
      requires InScope(scopes, sc)
      modifies this`tempC, this`block
      ensures ok == LowerLvalue(e, ChainOf(scopes, sc), old(tempC)).LowLv?
      ensures
        var low := LowerLvalue(e, ChainOf(scopes, sc), old(tempC));
        ok ==> block == old(block) + low.code && tempC == low.temps && lv == low.out
      decreases e, 1
    {
      if e.Atom? && e.kind == Tok.Identifier {
        ok, lv := FindVariable(scopes, sc, e.value);
        return;
      }
      if e.Unary? && e.op == Tok.Mul {
        var addr;
        ok, addr := IrExpr(e.node, sc);
        lv := AtTemp(addr);
        return;
      }
      ok, lv := false, AtTemp(0);
    }

    // ----- expressions -----

    method IrAtom(kind: Tok.Kind, value: string, n: nat, sc: nat) returns (ok: bool, t: nat)
      requires InScope(scopes, sc)
      modifies this`tempC, this`block
      ensures ok == LowerAtom(kind, value, n, ChainOf(scopes, sc), old(tempC)).Low?
      ensures
        var low := LowerAtom(kind, value, n, ChainOf(scopes, sc), old(tempC));
        ok ==> block == old(block) + low.code && tempC == low.temps && t == low.out
    {
      ok, t := true, 0;
      match kind
      case IntLit => t := EmitConst(Wrap(n));
      case StrLit =>
        t := NextTemp();
        AddNode(Data(t, n));
      case Identifier =>
        var lv;
        ok, lv := FindVariable(scopes, sc, value);
        if ok {
          t := LoadLvalue(lv);
        }
      case _ => ok := false;
    }

    /** The result is the temp that holds the value. */
    method IrExpr(e: Expr, sc: nat) returns (ok: bool, t: nat)
      requires InScope(scopes, sc)
      modifies this`tempC, this`block
      ensures ok == LowerExpr(e, ChainOf(scopes, sc), old(tempC)).Low?
      ensures
        var low := LowerExpr(e, ChainOf(scopes, sc), old(tempC));
        ok ==> block == old(block) + low.code && tempC == low.temps && t == low.out
      decreases e, 1
    {
      t := 0;
      match e
      case Atom(kind, value, n) => ok, t := IrAtom(kind, value, n, sc);
      case Unary(op, x) => ok, t := IrUnary(op, x, sc);
      case Binary(l, op, r) => ok, t := IrBinary(l, op, r, sc);
      case FunctionCall(name, args) => ok, t := IrCall(name, args, sc);
    }

    method IrUnary(op: Tok.Kind, x: Expr, sc: nat) returns (ok: bool, t: nat)
      requires InScope(scopes, sc)
      modifies this`tempC, this`block
      ensures ok == LowerExpr(Unary(op, x), ChainOf(scopes, sc), old(tempC)).Low?
      ensures
        var low := LowerExpr(Unary(op, x), ChainOf(scopes, sc), old(tempC));
        ok ==> block == old(block) + low.code && tempC == low.temps && t == low.out
      decreases x, 3
    {
      hide LowerAddressOf, LowerDeref, LowerNeg, LowerNot, LowerBump, ChainOf, Rooted;
      t := 0;
      match op
      case BitAnd => ok, t := IrAddressOf(x, sc);
      case Mul => ok, t := IrDeref(x, sc);
      case Sub => ok, t := IrNeg(x, sc);
      case Not => ok, t := IrNot(x, sc);
      case Inc => ok, t := IrBump(x, BinOp.Add, sc);
      case Dec => ok, t := IrBump(x, BinOp.Sub, sc);
      case _ => ok := false;
    }

    method IrAddressOf(x: Expr, sc: nat) returns (ok: bool, t: nat)
      requires InScope(scopes, sc)
      modifies this`tempC, this`block
      ensures ok == LowerAddressOf(x, ChainOf(scopes, sc), old(tempC)).Low?
      ensures
        var low := LowerAddressOf(x, ChainOf(scopes, sc), old(tempC));
        ok ==> block == old(block) + low.code && tempC == low.temps && t == low.out
      decreases x, 2
    {
      hide LowerLvalue;
      t := 0;
      var lv;
      ok, lv := IrLvalue(x, sc);
      if ok {
        t := AddrOfLvalue(lv);
      }
    }

    method IrDeref(x: Expr, sc: nat) returns (ok: bool, t: nat)
      requires InScope(scopes, sc)
      modifies this`tempC, this`block
      ensures ok == LowerDeref(x, ChainOf(scopes, sc), old(tempC)).Low?
      ensures
        var low := LowerDeref(x, ChainOf(scopes, sc), old(tempC));
        ok ==> block == old(block) + low.code && tempC == low.temps && t == low.out
      decreases x, 2
    {
      hide LowerExpr;
      t := 0;
      var v;
      ok, v := IrExpr(x, sc);
      if ok {
        t := LoadLvalue(AtTemp(v));
      }
    }

    method IrNeg(x: Expr, sc: nat) returns (ok: bool, t: nat)
      requires InScope(scopes, sc)
      modifies this`tempC, this`block
      ensures ok == LowerNeg(x, ChainOf(scopes, sc), old(tempC)).Low?
      ensures
        var low := LowerNeg(x, ChainOf(scopes, sc), old(tempC));
        ok ==> block == old(block) + low.code && tempC == low.temps && t == low.out
      decreases x, 2
    {
      hide LowerExpr;
      t := 0;
      var v;
      ok, v := IrExpr(x, sc);
      if ok {
        t := NextTemp();
        AddNode(Instr.Neg(t, v));
      }
    }

    method IrNot(x: Expr, sc: nat) returns (ok: bool, t: nat)
      requires InScope(scopes, sc)
      modifies this`tempC, this`block
      ensures ok == LowerNot(x, ChainOf(scopes, sc), old(tempC)).Low?
      ensures
        var low := LowerNot(x, ChainOf(scopes, sc), old(tempC));
        ok ==> block == old(block) + low.code && tempC == low.temps && t == low.out
      decreases x, 2
    {
      hide LowerExpr;
      t := 0;
      var v;
      ok, v := IrExpr(x, sc);
      if ok {
        var zero := EmitConst(0);
        t := EmitBin(BinOp.Eq, v, zero);
      }
    }

    /** `++` and `--`: one address for the load and the store. */
    method IrBump(x: Expr, op: BinOp, sc: nat) returns (ok: bool, t: nat)
      requires InScope(scopes, sc)
      modifies this`tempC, this`block
      ensures ok == LowerBump(x, op, ChainOf(scopes, sc), old(tempC)).Low?
      ensures
        var low := LowerBump(x, op, ChainOf(scopes, sc), old(tempC));
        ok ==> block == old(block) + low.code && tempC == low.temps && t == low.out
      decreases x, 2
    {
      hide LowerLvalue, ChainOf, Rooted;
      t := 0;
      var lv;
      ok, lv := IrLvalue(x, sc);
      if ok {
        var before := LoadLvalue(lv);
        var one := EmitConst(1);
        t := EmitBin(op, before, one);
        StoreLvalue(t, lv);
      }
    }

    method IrBinary(l: Expr, op: Tok.Kind, r: Expr, sc: nat) returns (ok: bool, t: nat)
      requires InScope(scopes, sc)
      modifies this`tempC, this`block
      ensures ok == LowerExpr(Binary(l, op, r), ChainOf(scopes, sc), old(tempC)).Low?
      ensures
        var low := LowerExpr(Binary(l, op, r), ChainOf(scopes, sc), old(tempC));
        ok ==> block == old(block) + low.code && tempC == low.temps && t == low.out
      decreases Binary(l, op, r), 0, 1
    {
      hide LowerAssign, LowerBinary;
      if op == Tok.Assign {
        ok, t := IrAssign(l, r, sc);
      } else {
        ok, t := IrOperator(l, op, r, sc);
      }
    }

    /** The right side first, then the lvalue. */
    method IrAssign(l: Expr, r: Expr, sc: nat) returns (ok: bool, t: nat)
      requires InScope(scopes, sc)
      modifies this`tempC, this`block
      ensures ok == LowerAssign(l, r, ChainOf(scopes, sc), old(tempC)).Low?
      ensures
        var low := LowerAssign(l, r, ChainOf(scopes, sc), old(tempC));
        ok ==> block == old(block) + low.code && tempC == low.temps && t == low.out
      decreases Binary(l, Tok.Assign, r), 0, 0
    {
      hide LowerExpr, LowerLvalue;
      ok, t := IrExpr(r, sc);
      if ok {
        var lv;
        ok, lv := IrLvalue(l, sc);
        if ok {
          StoreLvalue(t, lv);
        }
      }
    }

    method IrOperator(l: Expr, op: Tok.Kind, r: Expr, sc: nat) returns (ok: bool, t: nat)
      requires InScope(scopes, sc)
      modifies this`tempC, this`block
      ensures ok == LowerBinary(l, op, r, ChainOf(scopes, sc), old(tempC)).Low?
      ensures
        var low := LowerBinary(l, op, r, ChainOf(scopes, sc), old(tempC));
        ok ==> block == old(block) + low.code && tempC == low.temps && t == low.out
      decreases Binary(l, op, r), 0, 0
    {
      hide LowerExpr, LowerBinary, Source.OperatorOf, ChainOf, Rooted;
      BinaryParts(l, op, r, ChainOf(scopes, sc), tempC, block);
      t := 0;
      var irop := Source.OperatorOf(op);
      ok := irop.Some?;
      if ok {
        var a, b;
        ok, a, b := IrOperands(l, op, r, sc);
        if ok {
          t := EmitBin(irop.value, a, b);
        }
      }
    }

    /** The left operand first, then the right one. */
    method IrOperands(l: Expr, ghost op: Tok.Kind, r: Expr, sc: nat) returns (ok: bool, a: nat, b: nat)
      requires InScope(scopes, sc)
      modifies this`tempC, this`block
      ensures
        var left := LowerExpr(l, ChainOf(scopes, sc), old(tempC));
        if left.Fatal? then !ok
        else
          var right := LowerExpr(r, ChainOf(scopes, sc), left.temps);
          && ok == right.Low?
          && (ok ==> a == left.out && b == right.out && tempC == right.temps
                     && block == old(block) + left.code + right.code)
      decreases Binary(l, op, r), 0, 0, 0
    {
      hide *;
      b := 0;
      ok, a := IrExpr(l, sc);
      if !ok {
        return;
      }
      ok, b := IrExpr(r, sc);
    }

    method IrCall(name: string, args: Exprs, sc: nat) returns (ok: bool, t: nat)
      requires InScope(scopes, sc)
      modifies this`tempC, this`block
      ensures ok == LowerCall(name, args, ChainOf(scopes, sc), old(tempC)).Low?
      ensures
        var low := LowerCall(name, args, ChainOf(scopes, sc), old(tempC));
        ok ==> block == old(block) + low.code && tempC == low.temps && t == low.out
      decreases args, 2
    {
      hide LowerExpr, LowerArgs, ArgsLeft;
      ok, t := true, 0;
      var arg, temps: seq<nat> := args, [];
      ArgsBegin(args, ChainOf(scopes, sc), tempC, block);
      while arg.MoreExprs?
        invariant arg == args || arg < args
        invariant ArgsLeft(args, arg, ChainOf(scopes, sc), old(tempC), tempC, old(block), block, temps)
        decreases arg
      {
        ArgsStep(args, arg, ChainOf(scopes, sc), old(tempC), tempC, old(block), block, temps);
        var v;
        ok, v := IrExpr(arg.head, sc);
        if !ok {
          return;
        }
        temps := temps + [v];
        arg := arg.next;
      }
      ArgsEnd(args, ChainOf(scopes, sc), old(tempC), tempC, old(block), block, temps);
      t := NextTemp();
      AddNode(Instr.Call(t, name, temps));
    }

    // ----- statements -----

    /** The number of the storage goes into the record that declares the name. */
    method IrAuto(name: string, sc: nat) returns (ok: bool)
      requires InScope(scopes, sc)
      modifies this`tempC, this`block, this`scopes
      ensures ok == !Lookup(ChainOf(old(scopes), sc), name).Missing?
      ensures ok ==> tempC == old(tempC) + 1 && block == old(block) + [Alloc(tempC)]
      ensures ok ==> InScope(scopes, sc) && ChainOf(scopes, sc) == SetLocal(ChainOf(old(scopes), sc), name, tempC)
      ensures ok && 0 < sc && name in old(scopes)[sc].symtab ==> KeptIn(old(scopes), scopes, sc, |scopes|, |scopes|)
    {
      hide Rooted, ChainOf, KeptIn;
      var at, _ := LookupSymbol(scopes, sc, name);
      ok := at >= 0;
      if ok {
        var t := NextTemp();
        AddNode(Alloc(t));
        SetOwner(scopes, sc, name, t);
        SetRooted(scopes, at, name, t);
        scopes := scopes[at := SetTemp(scopes[at], name, t)];
      }
    }

    /** The number of a label, given when it is first met. */
    method NumberOf(name: string, ghost sc: nat) returns (id: nat)
      requires InScope(scopes, sc) && name in lables
      modifies this`lableC, this`lables
      ensures Cx(sc) == Numbered(old(Cx(sc)), name) && name in lables && id == lables[name].tempDest
    {
      if lables[name].tempDest == 0 {
        id := NextLable();
        ghost var was := lables;
        lables := lables[name := lables[name].(tempDest := id)];
        assert TempsOf(lables) == TempsOf(was)[name := id];
      } else {
        id := lables[name].tempDest;
      }
    }

    method IrReturn(e: Expr, sc: nat) returns (ok: bool)
      requires InScope(scopes, sc)
      modifies this`tempC, this`block
      ensures ok == LowerStmt(Stmt.Return(e), old(Cx(sc))).Lowered?
      ensures
        var r := LowerStmt(Stmt.Return(e), old(Cx(sc)));
        ok ==> block == old(block) + r.code && Cx(sc) == r.cx
    {
      hide LowerExpr, ChainOf, Rooted;
      var t;
      ok, t := IrExpr(e, sc);
      if ok {
        AddNode(Instr.Return(t));
      }
    }

    /** One statement after another, in the scope of the body. `ss` stands in scope `sc` and has not
        been lowered before. */
    method IrScope(body: Body, ghost ss: Stmts, ghost sc: nat, ghost offset: nat) returns (ok: bool)
      requires InScope(scopes, sc) && sc < body.id && FormedIn(ss) && body == DressBody(ss, body.id)
      requires Laid(scopes, body.id, RecordsBody(ss, sc, offset, body.id))
      modifies this
      ensures ok == LowerBlock(ss, old(Cx(sc))).Lowered?
      ensures ok ==> KeptBut(old(scopes), scopes, body.id, body.id + 1 + WidthIn(ss)) && InScope(scopes, sc)
      ensures
        var r := LowerBlock(ss, old(Cx(sc)));
        ok ==> block == old(block) + r.code && Cx(sc) == r.cx
      decreases ss, 1
    {
      hide LowerStmts, LowerStmt, StmtsLeft, BlockTable, RecordsBody, RecordsIn, Rooted, Laid, KeptBut, KeptIn,
        Declares,
        FormedIn, ChainOf, TempsOf, WidthIn, Records, Width, OffsetAfter, Formed, Dress;
      ok := true;
      var k := body.id;
      ghost var hi := k + 1 + WidthIn(ss);
      BodyOpens(scopes, ss, sc, offset, k);
      KeptNone(scopes, k, hi);
      ghost var cx0, rest, at: nat, off: nat := Cx(k), ss, k + 1, offset;
      StmtsBegin(ss, cx0, block);
      var curr := body.nodes;
      while curr.MoreNodes?
        invariant InScope(scopes, k) && InScope(scopes, sc) && KeptBut(old(scopes), scopes, k, hi)
        invariant rest == ss || rest < ss
        invariant Left(scopes, curr, rest, k, off, at) && at + WidthIn(rest) == hi
        invariant StmtsLeft(ss, rest, cx0, Cx(k), old(block), block)
        decreases rest
      {
        StmtsStep(ss, rest, cx0, Cx(k), old(block), block);
        LeftStep(scopes, curr, rest, k, off, at);
        ghost var before, s := scopes, rest.head;
        ok := IrStatement(curr.head, k, s, off, at);
        if !ok {
          return;
        }
        LeftNext(before, scopes, curr, rest, k, off, at);
        KeptBody(old(scopes), before, scopes, k, at, at + Width(s), hi);
        curr, rest, off, at := curr.next, rest.next, OffsetAfter(s, off), at + Width(s);
      }
      LeftEnd(scopes, curr, rest, k, off, at);
      StmtsEnd(ss, cx0, Cx(k), old(block), block);
      KeptChain(old(scopes), scopes, k, hi, sc);
    }

    method IrIfChain(links: Links, sc: nat, end: nat, ghost c: Chain, ghost offset: nat, ghost lo: nat)
      returns (ok: bool)
      requires InScope(scopes, sc) && sc < lo && FormedOf(c) && links == DressOf(c, lo)
        && Laid(scopes, lo, RecordsOf(c, sc, offset, lo))
      modifies this
      ensures ok == LowerChain(c, end, old(Cx(sc))).Lowered?
      ensures ok ==> KeptBut(old(scopes), scopes, lo, lo + WidthOf(c)) && InScope(scopes, sc)
      ensures
        var r := LowerChain(c, end, old(Cx(sc)));
        ok ==> block == old(block) + r.code && Cx(sc) == r.cx
      decreases c, 1
    {
      hide LowerLink, LowerBlock, RecordsBody, Rooted, Laid, KeptBut, FormedIn, ChainOf, TempsOf, WidthIn, DressBody;
      ok := true;
      match links
      case NoLinks => KeptNone(scopes, lo, lo);
      case ElseNode(body) =>
        BodyId(c.body, lo);
        ok := IrScope(body, c.body, sc, offset);
      case LinkNode(cond, body, chain) =>
        ghost var mid := lo + 1 + WidthIn(c.body);
        LaidSplit(scopes, lo, RecordsBody(c.body, sc, offset, lo), RecordsOf(c.chain, sc, offset, mid));
        ok := IrLink(cond, body, sc, end, c.body, offset, lo);
        if ok {
          ghost var now := scopes;
          LaidBut(old(scopes), now, lo, mid, mid, RecordsOf(c.chain, sc, offset, mid));
          ok := IrIfChain(chain, sc, end, c.chain, offset, mid);
          if ok {
            KeptBoth(old(scopes), now, scopes, lo, mid, lo + WidthOf(c));
          }
        }
    }

    /** One `if` or `else if`; its condition is looked up in scope `sc`. */
    method IrLink(cond: Expr, body: Body, sc: nat, end: nat, ghost ss: Stmts, ghost offset: nat, ghost lo: nat)
      returns (ok: bool)
      requires InScope(scopes, sc) && sc < lo && FormedIn(ss) && body == DressBody(ss, lo)
      requires Laid(scopes, lo, RecordsBody(ss, sc, offset, lo))
      modifies this
      ensures ok == LowerLink(cond, ss, end, old(Cx(sc))).Lowered?
      ensures ok ==> KeptBut(old(scopes), scopes, lo, lo + 1 + WidthIn(ss)) && InScope(scopes, sc)
      ensures
        var r := LowerLink(cond, ss, end, old(Cx(sc)));
        ok ==> block == old(block) + r.code && Cx(sc) == r.cx
      decreases ss, 2
    {
      hide LowerExpr, LowerBlock, LowerLink, RecordsBody, Rooted, Laid, KeptBut, FormedIn, ChainOf, TempsOf, WidthIn,
        DressBody;
      BodyId(ss, lo);
      LinkParts(cond, ss, end, Cx(sc));
      var yes := NextLable();
      var no := NextLable();
      var t;
      ok, t := IrExpr(cond, sc);
      if ok {
        AddNode(Branch(t, yes, no));
        AddNode(Label(yes));
        ok := IrScope(body, ss, sc, offset);
        if ok {
          AddNode(Jump(end));
          AddNode(Label(no));
        }
      }
    }

    method IrIf(links: Links, sc: nat, ghost c: Chain, ghost offset: nat, ghost lo: nat) returns (ok: bool)
      requires InScope(scopes, sc) && sc < lo && FormedOf(c) && links == DressOf(c, lo)
        && Laid(scopes, lo, RecordsOf(c, sc, offset, lo))
      modifies this
      ensures ok == LowerIf(c, old(Cx(sc))).Lowered?
      ensures ok ==> KeptBut(old(scopes), scopes, lo, lo + WidthOf(c)) && InScope(scopes, sc)
      ensures
        var r := LowerIf(c, old(Cx(sc)));
        ok ==> block == old(block) + r.code && Cx(sc) == r.cx
      decreases c, 2
    {
      hide LowerChain, RecordsOf, Rooted, Laid, KeptBut, FormedOf, ChainOf, TempsOf, WidthOf, DressOf;
      var end := NextLable();
      ok := IrIfChain(links, sc, end, c, offset, lo);
      if ok {
        AddNode(Label(end));
      }
    }

    method IrWhile(cond: Expr, body: Body, sc: nat, ghost ss: Stmts, ghost offset: nat) returns (ok: bool)
      requires InScope(scopes, sc) && sc < body.id && FormedIn(ss) && body == DressBody(ss, body.id)
      requires Laid(scopes, body.id, RecordsBody(ss, sc, offset, body.id))
      modifies this
      ensures ok == LowerWhile(cond, ss, old(Cx(sc))).Lowered?
      ensures ok ==> KeptBut(old(scopes), scopes, body.id, body.id + 1 + WidthIn(ss)) && InScope(scopes, sc)
      ensures
        var r := LowerWhile(cond, ss, old(Cx(sc)));
        ok ==> block == old(block) + r.code && Cx(sc) == r.cx
      decreases ss, 2
    {
      hide LowerExpr, LowerBlock, LowerWhile, RecordsBody, Rooted, Laid, KeptBut, FormedIn, ChainOf, TempsOf, WidthIn,
        DressBody;
      WhileParts(cond, ss, Cx(sc));
      var top := NextLable();
      var yes := NextLable();
      var no := NextLable();
      AddNode(Label(top));
      var t;
      ok, t := IrExpr(cond, sc);
      if ok {
        AddNode(Branch(t, yes, no));
        AddNode(Label(yes));
        ok := IrScope(body, ss, sc, offset);
        if ok {
          AddNode(Jump(top));
          AddNode(Label(no));
        }
      }
    }

    /** An `if` and a `while` are lowered in the parent of their body's scope, which for a tree that
        the parser has built is the scope they stand in. */
    method IrStatement(n: Node, sc: nat, ghost s: Stmt, ghost offset: nat, ghost lo: nat) returns (ok: bool)
      requires InScope(scopes, sc) && 0 < sc < lo && Formed(s) && n == Dress(s, lo)
        && Laid(scopes, lo, Records(s, sc, offset, lo))
      requires s.Auto? ==> s.name in scopes[sc].symtab
      modifies this
      ensures ok == LowerStmt(s, old(Cx(sc))).Lowered?
      ensures ok ==> KeptIn(old(scopes), scopes, sc, lo, lo + Width(s)) && InScope(scopes, sc)
      ensures
        var r := LowerStmt(s, old(Cx(sc)));
        ok ==> block == old(block) + r.code && Cx(sc) == r.cx
      decreases s, 1
    {
      hide LowerExpr, LowerBlock, LowerWhile, LowerIf, SetLocal, Lookup, Numbered, RecordsBody, RecordsOf, Rooted, Laid,
        KeptBut, KeptIn, FormedIn, FormedOf, ChainOf, TempsOf, WidthIn, WidthOf, DressBody, DressOf;
      match n
      case PlainNode(stmt) => ok := IrPlain(stmt, sc, lo);
      case ScopeNode(body) =>
        BodyId(s.body, lo);
        ok := IrScope(body, s.body, sc, offset);
        if ok {
          KeptWider(old(scopes), scopes, lo, lo + Width(s), sc, lo + Width(s));
        }
      case IfNode(links) =>
        FirstLink(scopes, s.links, sc, offset, lo);
        var parent := scopes[links.body.id].parent;
        ok := IrIf(links, parent, s.links, offset, lo);
        if ok {
          KeptWider(old(scopes), scopes, lo, lo + Width(s), sc, lo + Width(s));
        }
      case WhileNode(cond, body) =>
        BodyId(s.body, lo);
        BodyOpens(scopes, s.body, sc, offset, lo);
        var parent := scopes[body.id].parent;
        ok := IrWhile(cond, body, parent, s.body, offset);
        if ok {
          KeptWider(old(scopes), scopes, lo, lo + Width(s), sc, lo + Width(s));
        }
    }

    /** The statements that contain no others. */
    method IrPlain(s: Stmt, sc: nat, ghost lo: nat) returns (ok: bool)
      requires InScope(scopes, sc) && 0 < sc < lo && !s.Block? && !s.If? && !s.While?
      requires s.Auto? ==> s.name in scopes[sc].symtab
      modifies this
      ensures ok == LowerStmt(s, old(Cx(sc))).Lowered?
      ensures ok ==> KeptIn(old(scopes), scopes, sc, lo, lo) && InScope(scopes, sc)
      ensures
        var r := LowerStmt(s, old(Cx(sc)));
        ok ==> block == old(block) + r.code && Cx(sc) == r.cx
    {
      hide LowerExpr, SetLocal, Lookup, Numbered, Rooted, KeptIn, ChainOf;
      ok := true;
      KeptSame(scopes, sc, lo);
      LabelKeys(lables);
      match s
      case Return(e) => ok := IrReturn(e, sc);
      case Auto(name, _) =>
        ok := IrAuto(name, sc);
        if ok {
          KeptMore(old(scopes), scopes, sc, |scopes|, lo);
        }
      case Extrn(_) => assert block + [] == block;
      case Simple(e) =>
        var t;
        ok, t := IrExpr(e, sc);
      case Lable(name) =>
        ok := name in lables;
        if ok {
          var id := NumberOf(name, sc);
          AddNode(Label(id));
        }
      case Goto(name) =>
        ok := name in lables;
        if ok {
          var id := NumberOf(name, sc);
          AddNode(Jump(id));
        }
    }

    // ----- functions -----

    /** The whole function: entry label, parameters, body, implicit return. The scope of the
        parameters is number `lo`. */
    method IrFunction(node: ItemNode, ghost f: Function, ghost lo: nat) returns (ok: bool, fn: Fn)
      requires 0 < lo && Rooted(scopes) && FormedIn(f.body)
      requires node == DressItem(FunctionOf(f), lo) && Laid(scopes, lo, ItemRecords(FunctionOf(f), lo))
      modifies this
      ensures ok == LowerFunction(f, old(scopes)[0].symtab.Keys).Some?
      ensures ok ==> LowerFunction(f, old(scopes)[0].symtab.Keys) == Some(fn)
      ensures ok ==> KeptBut(old(scopes), scopes, lo, lo + ItemWidth(FunctionOf(f)))
    {
      hide LowerBlock, Epilogue, Prologue, Laid, KeptBut, RecordsBody, FormedIn, TempsOf, WidthIn, DressBody,
        ParamTable,
        Labelled, LabelsIn, LabelTable, ParamTemps;
      ghost var globals := scopes[0].symtab.Keys;
      var n, scope := node.params, node.body.scope;
      FunctionOpens(scopes, f, lo);
      fn := Fn(node.name, n, []);
      lables := node.lableTab;
      tempC, lableC, block := n, 0, [];
      var entry := NextLable();
      AddNode(Label(entry));
      NoPrologue(n);
      for i := 1 to n + 1
        invariant tempC == n + i - 1
        invariant block == [Label(1)] + Prologue(n, i - 1)
        invariant lableC == 1 && lables == node.lableTab && scopes == old(scopes)
      {
        var slot := NextTemp();
        AddNode(Alloc(slot));
        AddNode(Instr.Store(slot, i));
        AddNode(Instr.Address(i, slot));
        PrologueMore(n, i);
      }
      BodyId(f.body, lo + 1);
      assert Cx(lo) == FirstContext(f, globals);
      ok := IrScope(scope, f.body, lo, 1 + n);
      if !ok {
        return;
      }
      KeptFrom(old(scopes), scopes, lo, lo + ItemWidth(FunctionOf(f)));
      ghost var done := block;
      if !block[|block| - 1].Return? {
        var zero := EmitConst(0);
        AddNode(Instr.Return(zero));
      }
      EpilogueIs(done, block, tempC);
      fn := Fn(node.name, n, block);
    }
  }

  function FunctionOf(f: Function): R.Item {
    R.FunctionItem(f.name, f.params, Block(f.body))
  }

  /** One function after another: the tree and the scopes of a parsed file, whose program is `p`. */
  method GenIr(nodes: seq<ItemNode>, scopes: seq<Record>, ghost items: seq<R.Item>, ghost p: Program)
    returns (ok: bool, fns: seq<Fn>)
    requires Filed(items, nodes, scopes) && R.ProgramOf(items) == Some(p)
    ensures ok == LowerProgram(p).Some?
    ensures ok ==> LowerProgram(p) == Some(fns)
  {
    hide LowerFunction, Filed, Rooted, Laid, KeptBut, R.ProgramOf, DressItem, ItemRecords, ItemWidth, FormedIn;
    ok, fns := true, [];
    FileOpens(items, nodes, scopes, p);
    var ir := new IrGen(scopes);
    ghost var lo: nat, globals := 1, p.globals.Keys;
    KeptNone(scopes, 1, 1);
    NoProgram(items);
    for i := 0 to |nodes|
      invariant ok && |nodes| == |items| && lo == 1 + ItemsWidth(items[..i])
      invariant Rooted(scopes) && KeptBut(scopes, ir.scopes, 1, lo)
      invariant R.ProgramOf(items[..i]).Some?
      invariant LowerFunctions(R.ProgramOf(items[..i]).value.fns, globals) == Some(fns)
    {
      ItemNext(items, nodes, scopes, p, i);
      KeptRoot(scopes, ir.scopes, lo);
      var node := nodes[i];
      if node.FunctionNode? {
        ghost var f, now := FunctionAt(items, i), ir.scopes;
        LaidBut(scopes, ir.scopes, 1, lo, lo, ItemRecords(items[i], lo));
        var fn;
        ok, fn := ir.IrFunction(node, f, lo);
        OneMore(R.ProgramOf(items[..i]).value.fns, f, p.fns, globals);
        if !ok {
          return;
        }
        KeptBoth(scopes, now, ir.scopes, 1, lo, lo + ItemWidth(items[i]));
        fns := fns + [fn];
      } else {
        NoWidth(items[i]);
      }
      lo := lo + ItemWidth(items[i]);
    }
    assert items[..|items|] == items;
  }

  // ----- scopes and statements -----

  lemma BodyId(ss: Stmts, lo: nat)
    ensures DressBody(ss, lo).id == lo
  {
  }

  /** The rest of a body, not lowered yet: its nodes and the records of its scopes. */
  ghost predicate Left(scopes: seq<Record>, curr: NodeList, rest: Stmts, k: nat, offset: nat, at: nat) {
    && curr == DressIn(rest, at) && FormedIn(rest) && 0 < k < at && k < |scopes|
    && Laid(scopes, at, RecordsIn(rest, k, offset, at)) && Declares(scopes[k].symtab, rest)
  }

  lemma LeftStep(scopes: seq<Record>, curr: NodeList, rest: Stmts, k: nat, offset: nat, at: nat)
    requires Left(scopes, curr, rest, k, offset, at) && curr.MoreNodes?
    ensures rest.MoreStmts? && curr.head == Dress(rest.head, at) && Formed(rest.head)
    ensures Laid(scopes, at, Records(rest.head, k, offset, at))
    ensures rest.head.Auto? ==> rest.head.name in scopes[k].symtab
    ensures WidthIn(rest) == Width(rest.head) + WidthIn(rest.next)
  {
    hide Records, Laid, Width, Dress, Formed;
    var s := rest.head;
    LaidSplit(scopes, at, Records(s, k, offset, at), RecordsIn(rest.next, k, OffsetAfter(s, offset), at + Width(s)));
  }

  lemma LeftNext(a: seq<Record>, b: seq<Record>, curr: NodeList, rest: Stmts, k: nat, offset: nat, at: nat)
    requires Left(a, curr, rest, k, offset, at) && curr.MoreNodes? && rest.MoreStmts?
    requires KeptIn(a, b, k, at, at + Width(rest.head))
    ensures Left(b, curr.next, rest.next, k, OffsetAfter(rest.head, offset), at + Width(rest.head))
  {
    hide Records, Laid, Width, Dress, Formed, Rooted;
    var s := rest.head;
    var more := RecordsIn(rest.next, k, OffsetAfter(s, offset), at + Width(s));
    LaidSplit(a, at, Records(s, k, offset, at), more);
    LaidKept(a, b, k, at, at + Width(s), at + Width(s), more);
    DeclaresMore(a[k].symtab, b[k].symtab, rest.next);
  }

  lemma LeftEnd(scopes: seq<Record>, curr: NodeList, rest: Stmts, k: nat, offset: nat, at: nat)
    requires Left(scopes, curr, rest, k, offset, at) && curr.NoNodes?
    ensures rest.NoStmts?
  {
  }

  /** The first body of a chain stands in the scope of the chain. */
  lemma FirstLink(scopes: seq<Record>, c: Chain, sc: nat, offset: nat, lo: nat)
    requires c.Link? && Rooted(scopes) && sc < lo && Laid(scopes, lo, RecordsOf(c, sc, offset, lo))
    ensures DressOf(c, lo).LinkNode? && DressOf(c, lo).body.id == lo
    ensures lo < |scopes| && scopes[lo].Nested? && scopes[lo].parent == sc
  {
    hide RecordsBody, Rooted, ChainOf;
    var mid := lo + 1 + WidthIn(c.body);
    LaidSplit(scopes, lo, RecordsBody(c.body, sc, offset, lo), RecordsOf(c.chain, sc, offset, mid));
    BodyOpens(scopes, c.body, sc, offset, lo);
  }

  lemma KeptSame(a: seq<Record>, sc: nat, lo: nat)
    requires Rooted(a) && 0 < sc < |a|
    ensures KeptIn(a, a, sc, lo, lo)
  {
    assert Hangs(a[sc], sc);
  }

  lemma KeptMore(a: seq<Record>, b: seq<Record>, sc: nat, hi: nat, lo: nat)
    requires KeptIn(a, b, sc, hi, hi)
    ensures KeptIn(a, b, sc, lo, lo)
  {
    hide Rooted;
  }

  lemma LabelKeys(tab: Table)
    ensures TempsOf(tab).Keys == tab.Keys
  {
  }

  /** A function that has not been lowered yet: its parameters' scope hangs below the globals, and
      its body in that scope. */
  lemma FunctionOpens(scopes: seq<Record>, f: Function, lo: nat)
    requires Rooted(scopes) && 0 < lo && Laid(scopes, lo, ItemRecords(FunctionOf(f), lo))
    ensures lo < |scopes|
    ensures ChainOf(scopes, lo) == Inner(ParamTemps(f.params), Globals(scopes[0].symtab.Keys))
    ensures Laid(scopes, lo + 1, RecordsBody(f.body, lo, 1 + |f.params|, lo + 1))
    ensures TempsOf(Labelled(map[], LabelsIn(f.body))) == LabelTable(LabelsIn(f.body))
  {
    hide RecordsBody, ParamTable, ParamTemps, Labelled, LabelTable, LabelsIn, TempsOf;
    var r := Nested(ParamTable(f.params), 0);
    LaidSplit(scopes, lo, [r], RecordsBody(f.body, lo, 1 + |f.params|, lo + 1));
    LaidAt(scopes, lo, [r], 0);
    ParamTempsAre(f.params);
    LabelTempsAre(LabelsIn(f.body));
    assert ChainOf(scopes, 0) == Globals(scopes[0].symtab.Keys);
  }

  lemma KeptRoot(a: seq<Record>, b: seq<Record>, hi: nat)
    requires Rooted(a) && KeptBut(a, b, 1, hi)
    ensures Rooted(b) && b[0] == a[0]
  {
  }

  lemma NoWidth(x: R.Item)
    requires !x.FunctionItem?
    ensures ItemWidth(x) == 0
  {
  }

  lemma NoProgram(items: seq<R.Item>)
    ensures R.ProgramOf(items[..0]) == Some(Program([], map[]))
  {
    assert items[..0] == [];
  }

  /** The functions of a program are lowered one after another, or none. */
  lemma {:induction false} OneMore(fns: seq<Function>, f: Function, all: seq<Function>, globals: set<string>)
    requires LowerFunctions(fns, globals).Some? && fns + [f] <= all
    ensures LowerFunction(f, globals).None? ==> LowerFunctions(all, globals).None?
    ensures LowerFunction(f, globals).Some? ==>
              LowerFunctions(fns + [f], globals)
              == Some(LowerFunctions(fns, globals).value + [LowerFunction(f, globals).value])
  {
    hide LowerFunction;
    assert (fns + [f])[..|fns|] == fns;
    if LowerFunctions(all, globals).Some? {
      assert all[|fns|] == f;
    }
  }

  lemma KeptFrom(a: seq<Record>, b: seq<Record>, lo: nat, hi: nat)
    requires KeptBut(a, b, lo + 1, hi)
    ensures KeptBut(a, b, lo, hi)
  {
    hide Rooted;
  }

  // ----- files -----

  lemma {:induction false} ItemsHang(items: seq<R.Item>, i: nat)
    requires i < ItemsWidth(items)
    ensures Hangs(ItemsRecords(items)[i], 1 + i)
    decreases |items|
  {
    hide Hangs, ItemRecords, ItemWidth;
    var n := |items| - 1;
    if i < ItemsWidth(items[..n]) {
      ItemsHang(items[..n], i);
    } else {
      ItemHangs(items[n], 1 + ItemsWidth(items[..n]), i - ItemsWidth(items[..n]));
    }
  }

  lemma ItemHangs(x: R.Item, lo: nat, i: nat)
    requires 0 < lo && i < ItemWidth(x)
    ensures Hangs(ItemRecords(x, lo)[i], lo + i)
  {
    hide Records, ParamTable;
    if i == 0 {
      ParamKinds(x.params);
    } else {
      RecordsHang(x.body, lo, 1 + |x.params|, lo + 1, i - 1);
    }
  }

  lemma {:induction false} ParamKinds(params: seq<string>)
    ensures forall x :: x in ParamTable(params) ==> ParamTable(params)[x].kind.AutoVar?
    decreases |params|
  {
    if params != [] {
      ParamKinds(params[..|params| - 1]);
    }
  }

  lemma {:induction false} FileOpens(items: seq<R.Item>, nodes: seq<ItemNode>, scopes: seq<Record>, p: Program)
    requires Filed(items, nodes, scopes) && R.ProgramOf(items) == Some(p)
    ensures Rooted(scopes) && |nodes| == |items| && scopes[0].symtab.Keys == p.globals.Keys
  {
    hide ItemsRecords, GlobalTable, DressItems, FormedItem, Hangs;
    GlobalKinds(items);
    GlobalKeys(items);
    forall i | 0 < i < |scopes|
      ensures Hangs(scopes[i], i)
    {
      ItemsHang(items, i - 1);
    }
  }

  /** The function at place i of a file. */
  function FunctionAt(items: seq<R.Item>, i: nat): Function
    requires i < |items|
  {
    var x := items[i];
    if x.FunctionItem? && x.body.Block? then Function(x.name, x.params, x.body.body) else Function("", [], NoStmts)
  }

  lemma {:induction false} ItemNext(items: seq<R.Item>, nodes: seq<ItemNode>, scopes: seq<Record>, p: Program, i: nat)
    requires Filed(items, nodes, scopes) && R.ProgramOf(items) == Some(p) && i < |items|
    ensures |nodes| == |items| && nodes[i] == DressItem(items[i], 1 + ItemsWidth(items[..i]))
    ensures nodes[i].FunctionNode? == items[i].FunctionItem?
    ensures Laid(scopes, 1 + ItemsWidth(items[..i]), ItemRecords(items[i], 1 + ItemsWidth(items[..i])))
    ensures ItemsWidth(items[..i + 1]) == ItemsWidth(items[..i]) + ItemWidth(items[i])
    ensures R.ProgramOf(items[..i]).Some? && R.ProgramOf(items[..i + 1]).Some?
    ensures
      var fns, all := R.ProgramOf(items[..i]).value.fns, R.ProgramOf(items[..i + 1]).value.fns;
      && all <= p.fns
      && (if items[i].FunctionItem? then all == fns + [FunctionAt(items, i)] else all == fns)
    ensures items[i].FunctionItem? ==>
              FunctionOf(FunctionAt(items, i)) == items[i] && FormedIn(FunctionAt(items, i).body)
  {
    hide ItemRecords, ItemWidth, FormedIn, Laid, Filed;
    ItemLaid(items, nodes, scopes, i);
    PrefixProgram(items, i);
    PrefixProgram(items, i + 1);
    assert items[..i + 1][..i] == items[..i];
  }

  /** Part of an argument list is done: `rest` is to come. */
  ghost predicate ArgsLeft(args: Exprs, rest: Exprs, sc: Scope, c: nat, now: nat, before: seq<Instr>, code: seq<Instr>,
                           ts: seq<nat>)
  {
    var all, left := LowerArgs(args, sc, c), LowerArgs(rest, sc, now);
    && all.LowArgs? == left.LowArgs?
    && (left.LowArgs? ==> before + all.code == code + left.code && all.out == ts + left.out && all.temps == left.temps)
  }

  lemma ArgsBegin(args: Exprs, sc: Scope, c: nat, before: seq<Instr>)
    ensures ArgsLeft(args, args, sc, c, c, before, before, [])
  {
    hide LowerArgs;
    var all := LowerArgs(args, sc, c);
    if all.LowArgs? {
      assert [] + all.out == all.out;
    }
  }

  /** One more argument, or none of them. */
  lemma ArgsStep(args: Exprs, rest: Exprs, sc: Scope, c: nat, now: nat, before: seq<Instr>, code: seq<Instr>,
                 ts: seq<nat>)
    requires ArgsLeft(args, rest, sc, c, now, before, code, ts) && rest.MoreExprs?
    ensures
      var low := LowerExpr(rest.head, sc, now);
      if low.Low? then ArgsLeft(args, rest.next, sc, c, low.temps, before, code + low.code, ts + [low.out])
      else LowerArgs(args, sc, c).NoArgs?
  {
    hide LowerExpr;
    var low := LowerExpr(rest.head, sc, now);
    if low.Low? {
      var left := LowerArgs(rest.next, sc, low.temps);
      if left.LowArgs? {
        assert code + (low.code + left.code) == code + low.code + left.code;
        assert ts + ([low.out] + left.out) == ts + [low.out] + left.out;
      }
    }
  }

  lemma ArgsEnd(args: Exprs, sc: Scope, c: nat, now: nat, before: seq<Instr>, code: seq<Instr>, ts: seq<nat>)
    requires ArgsLeft(args, NoExprs, sc, c, now, before, code, ts)
    ensures
      var all := LowerArgs(args, sc, c);
      all.LowArgs? && before + all.code == code && all.out == ts && all.temps == now
  {
    assert LowerArgs(NoExprs, sc, now) == LowArgs([], [], now);
  }

  lemma BinaryParts(l: Expr, op: Tok.Kind, r: Expr, sc: Scope, c: nat, before: seq<Instr>)
    ensures
      var o, a := Source.OperatorOf(op), LowerExpr(l, sc, c);
      if o.None? || a.Fatal? then LowerBinary(l, op, r, sc, c).Fatal?
      else
        var b := LowerExpr(r, sc, a.temps);
        if b.Fatal? then LowerBinary(l, op, r, sc, c).Fatal?
        else
          var low := LowerBinary(l, op, r, sc, c);
          && low.Low? && low.out == b.temps + 1 && low.temps == b.temps + 1
          && before + low.code == before + a.code + b.code + [Bin(o.value, b.temps + 1, a.out, b.out)]
  {
    hide LowerExpr, Source.OperatorOf;
    var o, a := Source.OperatorOf(op), LowerExpr(l, sc, c);
    if o.Some? && a.Low? {
      var b := LowerExpr(r, sc, a.temps);
      if b.Low? {
        ThreeParts(before, a.code, b.code, [Bin(o.value, b.temps + 1, a.out, b.out)]);
      }
    }
  }

  lemma ThreeParts(before: seq<Instr>, a: seq<Instr>, b: seq<Instr>, c: seq<Instr>)
    ensures before + (a + b + c) == before + a + b + c
  {
  }

  /** Part of a block is done: `rest` is to come. */
  ghost predicate StmtsLeft(body: Stmts, rest: Stmts, cx0: Context, cx: Context, before: seq<Instr>, code: seq<Instr>)
  {
    var all, left := LowerStmts(body, cx0), LowerStmts(rest, cx);
    && all.Lowered? == left.Lowered?
    && (left.Lowered? ==> before + all.code == code + left.code && all.cx == left.cx)
  }

  lemma StmtsBegin(body: Stmts, cx: Context, before: seq<Instr>)
    ensures StmtsLeft(body, body, cx, cx, before, before)
  {
  }

  lemma StmtsStep(body: Stmts, rest: Stmts, cx0: Context, cx: Context, before: seq<Instr>, code: seq<Instr>)
    requires StmtsLeft(body, rest, cx0, cx, before, code) && rest.MoreStmts?
    ensures
      var r := LowerStmt(rest.head, cx);
      if r.Lowered? then StmtsLeft(body, rest.next, cx0, r.cx, before, code + r.code)
      else LowerStmts(body, cx0).Refused?
  {
    hide LowerStmt;
    var r := LowerStmt(rest.head, cx);
    if r.Lowered? {
      var left := LowerStmts(rest.next, r.cx);
      if left.Lowered? {
        assert code + (r.code + left.code) == code + r.code + left.code;
      }
    }
  }

  lemma StmtsEnd(body: Stmts, cx0: Context, cx: Context, before: seq<Instr>, code: seq<Instr>)
    requires StmtsLeft(body, NoStmts, cx0, cx, before, code)
    ensures
      var all := LowerStmts(body, cx0);
      all.Lowered? && before + all.code == code && all.cx == cx
  {
    assert LowerStmts(NoStmts, cx) == Lowered([], cx);
  }

  lemma LinkParts(cond: Expr, body: Stmts, end: nat, cx: Context)
    ensures
      var n, low := cx.labels, LowerExpr(cond, cx.scope, cx.temps);
      if low.Fatal? then LowerLink(cond, body, end, cx).Refused?
      else
        var r := LowerBlock(body, cx.(temps := low.temps, labels := n + 2));
        if r.Refused? then LowerLink(cond, body, end, cx).Refused?
        else LowerLink(cond, body, end, cx)
             == Lowered(low.code + [Branch(low.out, n + 1, n + 2)] + [Label(n + 1)] + r.code + [Jump(end)]
                        + [Label(n + 2)], r.cx)
  {
    hide LowerExpr, LowerBlock;
    var n, low := cx.labels, LowerExpr(cond, cx.scope, cx.temps);
    if low.Low? {
      var r := LowerBlock(body, cx.(temps := low.temps, labels := n + 2));
      if r.Lowered? {
        PartsApart(low.code, Branch(low.out, n + 1, n + 2), Label(n + 1), r.code, Jump(end), Label(n + 2));
      }
    }
  }

  lemma PartsApart(a: seq<Instr>, x: Instr, y: Instr, b: seq<Instr>, z: Instr, w: Instr)
    ensures a + [x, y] + b + [z, w] == a + [x] + [y] + b + [z] + [w]
  {
    assert a + [x, y] == a + [x] + [y];
  }

  lemma WhileParts(cond: Expr, body: Stmts, cx: Context)
    ensures
      var n, low := cx.labels, LowerExpr(cond, cx.scope, cx.temps);
      if low.Fatal? then LowerWhile(cond, body, cx).Refused?
      else
        var r := LowerBlock(body, cx.(temps := low.temps, labels := n + 3));
        if r.Refused? then LowerWhile(cond, body, cx).Refused?
        else LowerWhile(cond, body, cx)
             == Lowered([Label(n + 1)] + low.code + [Branch(low.out, n + 2, n + 3)] + [Label(n + 2)] + r.code
                        + [Jump(n + 1)]
                        + [Label(n + 3)], r.cx)
  {
    hide LowerExpr, LowerBlock;
    var n, low := cx.labels, LowerExpr(cond, cx.scope, cx.temps);
    if low.Low? {
      var r := LowerBlock(body, cx.(temps := low.temps, labels := n + 3));
      if r.Lowered? {
        PartsApart([Label(n + 1)] + low.code, Branch(low.out, n + 2, n + 3), Label(n + 2), r.code, Jump(n + 1),
                   Label(n + 3));
      }
    }
  }

  lemma NoPrologue(n: nat)
    ensures [Label(1)] == [Label(1)] + Prologue(n, 0)
  {
  }

  lemma PrologueMore(n: nat, i: nat)
    requires 1 <= i
    ensures [Label(1)] + Prologue(n, i)
            == [Label(1)] + Prologue(n, i - 1) + [Alloc(n + i)] + [Instr.Store(n + i, i)] + [Instr.Address(i, n + i)]
  {
    var three := [Alloc(n + i), Instr.Store(n + i, i), Instr.Address(i, n + i)];
    assert three == [Alloc(n + i)] + [Instr.Store(n + i, i)] + [Instr.Address(i, n + i)];
  }

  lemma EpilogueIs(done: seq<Instr>, all: seq<Instr>, c: nat)
    requires done != []
    requires if done[|done| - 1].Return? then all == done
             else c >= 1 && all == done + [Const(c, 0)] + [Instr.Return(c)]
    ensures all == done + Epilogue(done, if done[|done| - 1].Return? then c else c - 1)
  {
  }
}
