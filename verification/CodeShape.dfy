/** What lowered code looks like: which temps it sets, which cells it allocates, and which
    labels it defines and jumps to. */
module CodeShape {
  import opened Words
  import opened Ast
  import opened Scopes
  import opened Ir
  import opened Lowering
  import Tok = Tokens

  /** Straight-line code that allocates nothing. */
  ghost predicate Plain(code: seq<Instr>) {
    forall i :: 0 <= i < |code| ==>
      !code[i].Alloc? && !code[i].Label? && !code[i].Jump? && !code[i].Branch? && !code[i].Return?
  }

  lemma {:induction false} ExprPlain(e: Expr, sc: Scope, c: nat)
    requires LowerExpr(e, sc, c).Low?
    ensures Plain(LowerExpr(e, sc, c).code)
    decreases e, 1
  {
    hide Plain, LowerBump, LowerAssign, LowerBinary, LowerCall, LowerAddressOf, LowerDeref, LowerNeg,
      LowerNot, LowerAtom;
    match e
    case Atom(kind, value, n) => AtomPlain(kind, value, n, sc, c);
    case Unary(op, x) =>
      LvalueUsePlain(x, if op == Tok.Dec then BinOp.Sub else BinOp.Add, sc, c);
      OperandPlain(x, sc, c);
    case Binary(l, op, r) =>
      if op == Tok.Assign {
        AssignPlain(l, r, sc, c);
      } else {
        BinaryPlain(l, op, r, sc, c);
      }
    case FunctionCall(name, args) => CallPlain(name, args, sc, c);
  }

  lemma AtomPlain(kind: Tok.Kind, value: string, n: nat, sc: Scope, c: nat)
    requires LowerAtom(kind, value, n, sc, c).Low?
    ensures Plain(LowerAtom(kind, value, n, sc, c).code)
  {
  }

  lemma {:induction false} LvalueUsePlain(x: Expr, op: BinOp, sc: Scope, c: nat)
    ensures LowerAddressOf(x, sc, c).Low? ==> Plain(LowerAddressOf(x, sc, c).code)
    ensures LowerBump(x, op, sc, c).Low? ==> Plain(LowerBump(x, op, sc, c).code)
    decreases x, 2
  {
    hide Plain, LowerLvalue, LowerExpr;
    if LowerLvalue(x, sc, c).LowLv? {
      LvaluePlain(x, sc, c);
      UsePlain(LowerLvalue(x, sc, c), op);
    }
  }

  lemma {:induction false} OperandPlain(x: Expr, sc: Scope, c: nat)
    ensures LowerDeref(x, sc, c).Low? ==> Plain(LowerDeref(x, sc, c).code)
    ensures LowerNeg(x, sc, c).Low? ==> Plain(LowerNeg(x, sc, c).code)
    ensures LowerNot(x, sc, c).Low? ==> Plain(LowerNot(x, sc, c).code)
    decreases x, 2
  {
    hide Plain, LowerExpr;
    if LowerExpr(x, sc, c).Low? {
      ExprPlain(x, sc, c);
      TailPlain(LowerExpr(x, sc, c));
    }
  }

  lemma UsePlain(lw: LowLv, op: BinOp)
    requires lw.LowLv? && Plain(lw.code)
    ensures Plain(lw.code + [AddressLv(lw.out, lw.temps + 1)])
    ensures Plain(lw.code + [LoadLv(lw.out, lw.temps + 1), Const(lw.temps + 2, 1),
                             Bin(op, lw.temps + 3, lw.temps + 1, lw.temps + 2),
                             StoreLv(lw.out, lw.temps + 3)])
  {
  }

  lemma TailPlain(lx: Low)
    requires lx.Low? && Plain(lx.code)
    ensures Plain(lx.code + [Instr.Load(lx.temps + 1, lx.out)])
    ensures Plain(lx.code + [Instr.Neg(lx.temps + 1, lx.out)])
    ensures Plain(lx.code + [Const(lx.temps + 1, 0), Bin(BinOp.Eq, lx.temps + 2, lx.out, lx.temps + 1)])
  {
  }

  lemma {:induction false} AssignPlain(l: Expr, r: Expr, sc: Scope, c: nat)
    requires LowerAssign(l, r, sc, c).Low?
    ensures Plain(LowerAssign(l, r, sc, c).code)
    decreases Binary(l, Tok.Assign, r), 0
  {
    hide LowerExpr, LowerLvalue;
    ExprPlain(r, sc, c);
    LvaluePlain(l, sc, LowerExpr(r, sc, c).temps);
  }

  lemma {:induction false} BinaryPlain(l: Expr, op: Tok.Kind, r: Expr, sc: Scope, c: nat)
    requires LowerBinary(l, op, r, sc, c).Low?
    ensures Plain(LowerBinary(l, op, r, sc, c).code)
    decreases Binary(l, op, r), 0
  {
    hide LowerExpr;
    ExprPlain(l, sc, c);
    ExprPlain(r, sc, LowerExpr(l, sc, c).temps);
  }

  lemma {:induction false} CallPlain(name: string, args: Exprs, sc: Scope, c: nat)
    requires LowerCall(name, args, sc, c).Low?
    ensures Plain(LowerCall(name, args, sc, c).code)
    decreases args, 2
  {
    hide LowerArgs;
    ArgsPlain(args, sc, c);
  }

  lemma NothingPlain()
    ensures Plain([])
  {
  }

  lemma {:induction false} LvaluePlain(e: Expr, sc: Scope, c: nat)
    requires LowerLvalue(e, sc, c).LowLv?
    ensures Plain(LowerLvalue(e, sc, c).code)
    decreases e, 1
  {
    hide LowerExpr, Plain;
    match e
    case Atom(_, _, _) => NothingPlain();
    case Unary(_, x) => ExprPlain(x, sc, c);
  }

  lemma {:induction false} ArgsPlain(args: Exprs, sc: Scope, c: nat)
    requires LowerArgs(args, sc, c).LowArgs?
    ensures Plain(LowerArgs(args, sc, c).code)
    decreases args, 1
  {
    hide LowerExpr;
    match args
    case NoExprs =>
    case MoreExprs(e, next) =>
      ExprPlain(e, sc, c);
      ArgsPlain(next, sc, LowerExpr(e, sc, c).temps);
  }

  // ----- allocations -----

  /** The temps that the `Alloc`s of the code set, in text order. */
  function AllocTemps(code: seq<Instr>): (ts: seq<nat>)
    ensures |ts| == Allocs(code)
  {
    if code == [] then []
    else
      var n := |code| - 1;
      AllocTemps(code[..n]) + (if code[n].Alloc? then [code[n].dest] else [])
  }

  lemma {:induction false} AllocTempsSum(a: seq<Instr>, b: seq<Instr>)
    ensures AllocTemps(a + b) == AllocTemps(a) + AllocTemps(b)
    ensures Allocs(a + b) == Allocs(a) + Allocs(b)
    decreases |b|
  {
    if b == [] {
      assert a + b == a;
    } else {
      var n := |b| - 1;
      assert (a + b)[..|a + b| - 1] == a + b[..n];
      AllocTempsSum(a, b[..n]);
      assert AllocTemps(a + b) == AllocTemps(a) + (AllocTemps(b[..n]) + (if b[n].Alloc? then [b[n].dest] else []));
    }
  }

  lemma {:induction false} PlainAllocs(code: seq<Instr>)
    requires Plain(code)
    ensures AllocTemps(code) == []
  {
    if code != [] {
      PlainAllocs(code[..|code| - 1]);
    }
  }

  lemma OneAlloc(i: Instr)
    ensures AllocTemps([i]) == if i.Alloc? then [i.dest] else []
  {
    assert [i][..0] == [];
  }

  /** The temps in `own` are increasing and lie in (c, d]. */
  ghost predicate Rising(own: seq<nat>, c: nat, d: nat) {
    && c <= d
    && (forall i :: 0 <= i < |own| ==> c < own[i] <= d)
    && (forall i, j :: 0 <= i < j < |own| ==> own[i] < own[j])
  }

  lemma RisingSum(a: seq<nat>, b: seq<nat>, c: nat, d: nat, e: nat)
    requires Rising(a, c, d) && Rising(b, d, e)
    ensures Rising(a + b, c, e)
  {
  }

  lemma RisingNone(c: nat, d: nat)
    requires c <= d
    ensures Rising([], c, d)
  {
  }

  /** A statement allocates one cell for each of its `auto`s, in text order. */
  lemma {:induction false} StmtAllocs(s: Stmt, cx: Context)
    requires LowerStmt(s, cx).Lowered?
    ensures |AllocTemps(LowerStmt(s, cx).code)| == Autos(s)
    ensures Rising(AllocTemps(LowerStmt(s, cx).code), cx.temps, LowerStmt(s, cx).cx.temps)
    decreases s, 1
  {
    hide LowerExpr, LowerBlock, LowerWhile, LowerIf, AllocTemps, Plain, Lookup, SetLocal;
    var code := LowerStmt(s, cx).code;
    match s
    case Return(e) => ReturnAllocs(e, cx);
    case Block(body) => BlockAllocs(body, cx);
    case Auto(name, _) => OneAlloc(Alloc(cx.temps + 1));
    case Extrn(_) => NoAllocs([]);
    case Simple(e) =>
      ExprPlain(e, cx.scope, cx.temps);
      PlainAllocs(code);
    case If(links) => IfAllocs(links, cx);
    case While(cond, body) => WhileAllocs(cond, body, cx);
    case Lable(name) => OneAlloc(code[0]);
    case Goto(name) => OneAlloc(code[0]);
  }

  lemma ReturnAllocs(e: Expr, cx: Context)
    requires LowerExpr(e, cx.scope, cx.temps).Low?
    ensures
      var low := LowerExpr(e, cx.scope, cx.temps);
      AllocTemps(low.code + [Instr.Return(low.out)]) == [] && low.temps >= cx.temps
  {
    hide LowerExpr, AllocTemps, Plain;
    var low := LowerExpr(e, cx.scope, cx.temps);
    ExprPlain(e, cx.scope, cx.temps);
    PlainAllocs(low.code);
    AllocTempsSum(low.code, [Instr.Return(low.out)]);
    OneAlloc(Instr.Return(low.out));
  }

  lemma {:induction false} IfAllocs(links: Chain, cx: Context)
    requires LowerIf(links, cx).Lowered?
    ensures |AllocTemps(LowerIf(links, cx).code)| == AutosOf(links)
    ensures Rising(AllocTemps(LowerIf(links, cx).code), cx.temps, LowerIf(links, cx).cx.temps)
    decreases links, 2
  {
    hide LowerChain, AllocTemps;
    var end := cx.labels + 1;
    ChainAllocs(links, end, cx.(labels := end));
    AllocTempsSum(LowerChain(links, end, cx.(labels := end)).code, [Label(end)]);
    OneAlloc(Label(end));
  }

  lemma {:induction false} WhileAllocs(cond: Expr, body: Stmts, cx: Context)
    requires LowerWhile(cond, body, cx).Lowered?
    ensures |AllocTemps(LowerWhile(cond, body, cx).code)| == AutosIn(body)
    ensures Rising(AllocTemps(LowerWhile(cond, body, cx).code), cx.temps,
                   LowerWhile(cond, body, cx).cx.temps)
    decreases body, 2
  {
    hide LowerExpr, LowerBlock, AllocTemps, Plain, Autos, AutosIn;
    var n := cx.labels;
    var low := LowerExpr(cond, cx.scope, cx.temps);
    var cxb := cx.(temps := low.temps, labels := n + 3);
    ExprPlain(cond, cx.scope, cx.temps);
    BlockAllocs(body, cxb);
    FrameAllocs([Label(n + 1)], low.code, [Branch(low.out, n + 2, n + 3), Label(n + 2)],
                LowerBlock(body, cxb).code, [Jump(n + 1), Label(n + 3)]);
  }

  lemma {:induction false} LinkAllocs(cond: Expr, body: Stmts, end: nat, cx: Context)
    requires LowerLink(cond, body, end, cx).Lowered?
    ensures |AllocTemps(LowerLink(cond, body, end, cx).code)| == AutosIn(body)
    ensures Rising(AllocTemps(LowerLink(cond, body, end, cx).code), cx.temps,
                   LowerLink(cond, body, end, cx).cx.temps)
    decreases body, 2
  {
    hide LowerExpr, LowerBlock, AllocTemps, Plain, Autos, AutosIn;
    var n := cx.labels;
    var low := LowerExpr(cond, cx.scope, cx.temps);
    var cxb := cx.(temps := low.temps, labels := n + 2);
    ExprPlain(cond, cx.scope, cx.temps);
    BlockAllocs(body, cxb);
    assert [] + low.code == low.code;
    FrameAllocs([], low.code, [Branch(low.out, n + 1, n + 2), Label(n + 1)],
                LowerBlock(body, cxb).code, [Jump(end), Label(n + 2)]);
  }

  /** Code around a block that allocates nothing itself. */
  lemma FrameAllocs(a: seq<Instr>, b: seq<Instr>, c: seq<Instr>, block: seq<Instr>, d: seq<Instr>)
    requires Plain(b)
    requires |a| <= 1 && |c| <= 2 && |d| <= 2
    requires forall x :: x in a || x in c || x in d ==> !x.Alloc?
    ensures AllocTemps(a + b + c + block + d) == AllocTemps(block)
  {
    NoAllocs(a); NoAllocs(c); NoAllocs(d); PlainAllocs(b);
    AllocTempsSum(a + b + c + block, d);
    AllocTempsSum(a + b + c, block);
    AllocTempsSum(a + b, c);
    AllocTempsSum(a, b);
    assert [] + AllocTemps(block) + [] == AllocTemps(block);
  }

  lemma {:induction false} NoAllocs(a: seq<Instr>)
    requires forall x :: x in a ==> !x.Alloc?
    ensures AllocTemps(a) == []
  {
    if a != [] {
      NoAllocs(a[..|a| - 1]);
    }
  }

  lemma {:induction false} BlockAllocs(body: Stmts, cx: Context)
    requires LowerBlock(body, cx).Lowered?
    ensures |AllocTemps(LowerBlock(body, cx).code)| == AutosIn(body)
    ensures Rising(AllocTemps(LowerBlock(body, cx).code), cx.temps, LowerBlock(body, cx).cx.temps)
    decreases body, 1
  {
    StmtsAllocs(body, cx.(scope := Inner(BlockTable(body), cx.scope)));
  }

  lemma {:induction false} StmtsAllocs(ss: Stmts, cx: Context)
    requires LowerStmts(ss, cx).Lowered?
    ensures |AllocTemps(LowerStmts(ss, cx).code)| == AutosIn(ss)
    ensures Rising(AllocTemps(LowerStmts(ss, cx).code), cx.temps, LowerStmts(ss, cx).cx.temps)
    decreases ss, 0
  {
    hide LowerStmt, AllocTemps;
    match ss
    case NoStmts => NoAllocs([]);
    case MoreStmts(s, next) =>
      var l1 := LowerStmt(s, cx);
      var l2 := LowerStmts(next, l1.cx);
      StmtAllocs(s, cx);
      StmtsAllocs(next, l1.cx);
      AllocTempsSum(l1.code, l2.code);
      RisingSum(AllocTemps(l1.code), AllocTemps(l2.code), cx.temps, l1.cx.temps, l2.cx.temps);
  }

  lemma {:induction false} ChainAllocs(links: Chain, end: nat, cx: Context)
    requires LowerChain(links, end, cx).Lowered?
    ensures |AllocTemps(LowerChain(links, end, cx).code)| == AutosOf(links)
    ensures Rising(AllocTemps(LowerChain(links, end, cx).code), cx.temps,
                   LowerChain(links, end, cx).cx.temps)
    decreases links, 1
  {
    hide LowerLink, LowerBlock, AllocTemps;
    match links
    case NoChain => NoAllocs([]);
    case Else(body) => BlockAllocs(body, cx);
    case Link(cond, body, chain) =>
      var l1 := LowerLink(cond, body, end, cx);
      var l2 := LowerChain(chain, end, l1.cx);
      LinkAllocs(cond, body, end, cx);
      ChainAllocs(chain, end, l1.cx);
      AllocTempsSum(l1.code, l2.code);
      RisingSum(AllocTemps(l1.code), AllocTemps(l2.code), cx.temps, l1.cx.temps, l2.cx.temps);
  }
}
