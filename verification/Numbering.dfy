/** The numbers the lowering gives to temps: the instructions of a piece of code set the temps
    c + 1, c + 2, ..., d in text order, where c and d are the counter before and after, and read
    no temp above d. */
module Numbering {
  import opened Words
  import opened Ast
  import opened Scopes
  import opened Ir
  import opened Lowering
  import opened CodeShape
  import opened Codegen
  import Tok = Tokens
  import Source

  /** The instructions that set a temp. */
  predicate Sets(x: Instr) {
    !x.Label? && !x.Store? && !x.GlobalStore? && !x.Jump? && !x.Branch? && !x.Return?
  }

  /** The temps an instruction reads. */
  function Uses(x: Instr): seq<nat> {
    match x
    case Address(_, t) => [t]
    case Load(_, t) => [t]
    case Store(t, u) => [t, u]
    case GlobalStore(_, u) => [u]
    case Neg(_, t) => [t]
    case Bin(_, _, t, u) => [t, u]
    case Branch(t, _, _) => [t]
    case Call(_, _, ts) => ts
    case Return(t) => [t]
    case _ => []
  }

  /** The temps that code sets, in text order. */
  function Dests(code: seq<Instr>): seq<nat> {
    if code == [] then []
    else (if Sets(code[0]) then [Dest(code[0])] else []) + Dests(code[1..])
  }

  function Upto(c: nat, d: nat): (r: seq<nat>)
    requires c <= d
    ensures |r| == d - c && forall i :: 0 <= i < |r| ==> r[i] == c + 1 + i
  {
    seq(d - c, i requires 0 <= i < d - c => c + 1 + i)
  }

  ghost predicate ReadsUpto(code: seq<Instr>, d: nat) {
    forall x, t :: x in code && t in Uses(x) ==> 1 <= t <= d
  }

  ghost predicate Tidy(code: seq<Instr>, c: nat, d: nat) {
    c <= d && Dests(code) == Upto(c, d) && ReadsUpto(code, d)
  }

  /** No variable in scope has a temp above c. */
  ghost predicate Under(sc: Scope, c: nat) {
    forall x: string :: Lookup(sc, x).Local? ==> Lookup(sc, x).n <= c
  }

  lemma {:induction false} DestsSum(a: seq<Instr>, b: seq<Instr>)
    ensures Dests(a + b) == Dests(a) + Dests(b)
    decreases |a|
  {
    hide Sets, Dest;
    if a == [] {
      assert a + b == b;
    } else {
      assert (a + b)[1..] == a[1..] + b;
      DestsSum(a[1..], b);
      assert Dests(a + b) == (if Sets(a[0]) then [Dest(a[0])] else []) + (Dests(a[1..]) + Dests(b));
    }
  }

  lemma TidySum(a: seq<Instr>, b: seq<Instr>, c: nat, d: nat, e: nat)
    requires Tidy(a, c, d) && Tidy(b, d, e)
    ensures Tidy(a + b, c, e)
  {
    hide Dests, Uses;
    DestsSum(a, b);
    assert Upto(c, d) + Upto(d, e) == Upto(c, e);
    forall x, t | x in a + b && t in Uses(x)
      ensures 1 <= t <= e
    {
      if x in a {
      } else {
        assert x in b;
      }
    }
  }

  lemma TidyNone(c: nat)
    ensures Tidy([], c, c)
  {
  }

  /** An instruction that sets the next temp. */
  lemma TidyOne(x: Instr, c: nat)
    requires Sets(x) && Dest(x) == c + 1 && forall t :: t in Uses(x) ==> 1 <= t <= c + 1
    ensures Tidy([x], c, c + 1)
  {
    assert Dests([x]) == [c + 1] + Dests([]) by { assert [x][1..] == []; }
  }

  /** An instruction that sets none. */
  lemma TidyZero(x: Instr, c: nat)
    requires !Sets(x) && forall t :: t in Uses(x) ==> 1 <= t <= c
    ensures Tidy([x], c, c)
  {
    assert Dests([x]) == Dests([]) by { assert [x][1..] == []; }
  }

  lemma UnderMore(sc: Scope, c: nat, d: nat)
    requires Under(sc, c) && c <= d
    ensures Under(sc, d)
  {
  }

  // ----- expressions -----

  ghost predicate TidyLow(low: Low, c: nat) {
    low.Low? ==> Tidy(low.code, c, low.temps)
  }

  ghost predicate TidyLv(lv: LowLv, c: nat) {
    lv.LowLv? ==> c <= lv.temps && Tidy(lv.code, c, lv.temps)
                  && (lv.out.AtTemp? ==> 1 <= lv.out.t <= lv.temps)
  }

  lemma {:induction false} ExprTidy(e: Expr, sc: Scope, c: nat)
    requires Under(sc, c)
    ensures TidyLow(LowerExpr(e, sc, c), c)
    decreases e, 1
  {
    hide TidyLow, LowerBump, LowerAssign, LowerBinary, LowerCall, LowerAddressOf, LowerDeref, LowerNeg,
      LowerNot, LowerAtom, Under;
    match e
    case Atom(kind, value, n) => AtomTidy(kind, value, n, sc, c);
    case Unary(op, x) =>
      LvalueUseTidy(x, if op == Tok.Dec then BinOp.Sub else BinOp.Add, sc, c);
      OperandTidy(x, sc, c);
      FatalTidy(c);
    case Binary(l, op, r) =>
      if op == Tok.Assign {
        AssignTidy(l, r, sc, c);
      } else {
        BinaryTidy(l, op, r, sc, c);
      }
    case FunctionCall(name, args) => CallTidy(name, args, sc, c);
  }

  lemma FatalTidy(c: nat)
    ensures TidyLow(Fatal, c)
  {
  }

  lemma LoadTidy(lv: LValue, c: nat)
    requires lv.AtTemp? ==> 1 <= lv.t <= c
    ensures Tidy([LoadLv(lv, c + 1)], c, c + 1)
  {
    TidyOne(LoadLv(lv, c + 1), c);
  }

  lemma StoreTidy(lv: LValue, v: nat, c: nat)
    requires (lv.AtTemp? ==> 1 <= lv.t <= c) && 1 <= v <= c
    ensures Tidy([StoreLv(lv, v)], c, c)
  {
    TidyZero(StoreLv(lv, v), c);
  }

  lemma AtomTidy(kind: Tok.Kind, value: string, n: nat, sc: Scope, c: nat)
    requires Under(sc, c)
    ensures TidyLow(LowerAtom(kind, value, n, sc, c), c)
  {
    hide Tidy, Wrap;
    TidyOne(Const(c + 1, Wrap(n)), c);
    TidyOne(Data(c + 1, n), c);
    if LowerVar(sc, value, c).LowLv? {
      LoadTidy(LowerVar(sc, value, c).out, c);
    }
  }

  lemma {:induction false} LvalueUseTidy(x: Expr, op: BinOp, sc: Scope, c: nat)
    requires Under(sc, c)
    ensures TidyLow(LowerAddressOf(x, sc, c), c)
    ensures TidyLow(LowerBump(x, op, sc, c), c)
    decreases x, 2
  {
    hide Tidy, LowerLvalue, Under, AddressLv, LoadLv, StoreLv;
    LvalueTidy(x, sc, c);
    var lw := LowerLvalue(x, sc, c);
    if lw.LowLv? {
      UseTidy(lw, op, c);
    }
  }

  /** What is done with an lvalue. */
  lemma UseTidy(lw: LowLv, op: BinOp, c: nat)
    requires lw.LowLv? && TidyLv(lw, c)
    ensures Tidy(lw.code + [AddressLv(lw.out, lw.temps + 1)], c, lw.temps + 1)
    ensures Tidy(lw.code + [LoadLv(lw.out, lw.temps + 1), Const(lw.temps + 2, 1),
                            Bin(op, lw.temps + 3, lw.temps + 1, lw.temps + 2), StoreLv(lw.out, lw.temps + 3)],
                 c, lw.temps + 3)
  {
    hide Tidy, AddressLv, LoadLv, StoreLv;
    var d := lw.temps;
    AddressTidy(lw.out, d);
    TidySum(lw.code, [AddressLv(lw.out, d + 1)], c, d, d + 1);
    BumpTidy(lw.out, op, d);
    var rest := [LoadLv(lw.out, d + 1), Const(d + 2, 1), Bin(op, d + 3, d + 1, d + 2), StoreLv(lw.out, d + 3)];
    TidySum(lw.code, rest, c, d, d + 3);
  }

  lemma AddressTidy(lv: LValue, c: nat)
    requires lv.AtTemp? ==> 1 <= lv.t <= c
    ensures Tidy([AddressLv(lv, c + 1)], c, c + 1)
  {
    TidyOne(AddressLv(lv, c + 1), c);
  }

  lemma BumpTidy(lv: LValue, op: BinOp, d: nat)
    requires lv.AtTemp? ==> 1 <= lv.t <= d
    ensures Tidy([LoadLv(lv, d + 1), Const(d + 2, 1), Bin(op, d + 3, d + 1, d + 2), StoreLv(lv, d + 3)], d, d + 3)
  {
    hide Tidy;
    LoadTidy(lv, d);
    TidyOne(Const(d + 2, 1), d + 1);
    TidyOne(Bin(op, d + 3, d + 1, d + 2), d + 2);
    StoreTidy(lv, d + 3, d + 3);
    var a, b, x, y := [LoadLv(lv, d + 1)], [Const(d + 2, 1)], [Bin(op, d + 3, d + 1, d + 2)], [StoreLv(lv, d + 3)];
    TidySum(a, b, d, d + 1, d + 2);
    TidySum(a + b, x, d, d + 2, d + 3);
    TidySum(a + b + x, y, d, d + 3, d + 3);
    assert a + b + x + y == [LoadLv(lv, d + 1), Const(d + 2, 1), Bin(op, d + 3, d + 1, d + 2), StoreLv(lv, d + 3)];
  }

  lemma {:induction false} OperandTidy(x: Expr, sc: Scope, c: nat)
    requires Under(sc, c)
    ensures TidyLow(LowerDeref(x, sc, c), c)
    ensures TidyLow(LowerNeg(x, sc, c), c)
    ensures TidyLow(LowerNot(x, sc, c), c)
    decreases x, 2
  {
    hide Tidy, LowerExpr, Under;
    ExprTidy(x, sc, c);
    var lx := LowerExpr(x, sc, c);
    if lx.Low? {
      var d := lx.temps;
      TailTidy(lx.out, d);
      TidySum(lx.code, [Instr.Load(d + 1, lx.out)], c, d, d + 1);
      TidySum(lx.code, [Instr.Neg(d + 1, lx.out)], c, d, d + 1);
      TidySum(lx.code, [Const(d + 1, 0), Bin(BinOp.Eq, d + 2, lx.out, d + 1)], c, d, d + 2);
    }
  }

  lemma TailTidy(t: nat, d: nat)
    requires 1 <= t <= d
    ensures Tidy([Instr.Load(d + 1, t)], d, d + 1)
    ensures Tidy([Instr.Neg(d + 1, t)], d, d + 1)
    ensures Tidy([Const(d + 1, 0), Bin(BinOp.Eq, d + 2, t, d + 1)], d, d + 2)
  {
    hide Tidy;
    TidyOne(Instr.Load(d + 1, t), d);
    TidyOne(Instr.Neg(d + 1, t), d);
    TidyOne(Const(d + 1, 0), d);
    TidyOne(Bin(BinOp.Eq, d + 2, t, d + 1), d + 1);
    TidySum([Const(d + 1, 0)], [Bin(BinOp.Eq, d + 2, t, d + 1)], d, d + 1, d + 2);
    assert [Const(d + 1, 0)] + [Bin(BinOp.Eq, d + 2, t, d + 1)] == [Const(d + 1, 0), Bin(BinOp.Eq, d + 2, t, d + 1)];
  }

  lemma {:induction false} AssignTidy(l: Expr, r: Expr, sc: Scope, c: nat)
    requires Under(sc, c)
    ensures TidyLow(LowerAssign(l, r, sc, c), c)
    decreases Binary(l, Tok.Assign, r), 0
  {
    hide Tidy, LowerExpr, LowerLvalue, Under;
    ExprTidy(r, sc, c);
    var lr := LowerExpr(r, sc, c);
    if lr.Low? {
      UnderMore(sc, c, lr.temps);
      LvalueTidy(l, sc, lr.temps);
      var ll := LowerLvalue(l, sc, lr.temps);
      if ll.LowLv? {
        TidySum(lr.code, ll.code, c, lr.temps, ll.temps);
        StoreTidy(ll.out, lr.out, ll.temps);
        TidySum(lr.code + ll.code, [StoreLv(ll.out, lr.out)], c, ll.temps, ll.temps);
      }
    }
  }

  lemma BinaryCode(l: Expr, op: Tok.Kind, r: Expr, sc: Scope, c: nat)
    ensures LowerBinary(l, op, r, sc, c).Low? ==>
      var ll := LowerExpr(l, sc, c);
      && Source.OperatorOf(op).Some? && ll.Low?
      && var lr := LowerExpr(r, sc, ll.temps);
      && lr.Low?
      && var x := Bin(Source.OperatorOf(op).value, lr.temps + 1, ll.out, lr.out);
      LowerBinary(l, op, r, sc, c) == Low(ll.code + lr.code + [x], lr.temps + 1, lr.temps + 1)
  {
    hide LowerExpr, Source.OperatorOf;
  }

  lemma {:induction false} BinaryTidy(l: Expr, op: Tok.Kind, r: Expr, sc: Scope, c: nat)
    requires Under(sc, c)
    ensures TidyLow(LowerBinary(l, op, r, sc, c), c)
    decreases Binary(l, op, r), 0
  {
    hide TidyLow, LowerExpr, Under, LowerBinary;
    ExprTidy(l, sc, c);
    var ll := LowerExpr(l, sc, c);
    if ll.Low? {
      UnderMore(sc, c, ll.temps);
      ExprTidy(r, sc, ll.temps);
    }
    OperandsTidy(l, op, r, sc, c);
  }

  lemma OperandsTidy(l: Expr, op: Tok.Kind, r: Expr, sc: Scope, c: nat)
    requires
      var ll := LowerExpr(l, sc, c);
      TidyLow(ll, c) && (ll.Low? ==> TidyLow(LowerExpr(r, sc, ll.temps), ll.temps))
    ensures TidyLow(LowerBinary(l, op, r, sc, c), c)
  {
    hide Tidy, LowerExpr, Source.OperatorOf, LowerBinary;
    if LowerBinary(l, op, r, sc, c).Low? {
      BinaryCode(l, op, r, sc, c);
      var ll := LowerExpr(l, sc, c);
      BothTidy(ll, LowerExpr(r, sc, ll.temps), Source.OperatorOf(op).value, c);
    }
  }

  lemma BothTidy(ll: Low, lr: Low, op: BinOp, c: nat)
    requires ll.Low? && lr.Low? && 1 <= ll.out <= ll.temps && 1 <= lr.out <= lr.temps
    requires Tidy(ll.code, c, ll.temps) && Tidy(lr.code, ll.temps, lr.temps)
    ensures Tidy(ll.code + lr.code + [Bin(op, lr.temps + 1, ll.out, lr.out)], c, lr.temps + 1)
  {
    hide Tidy;
    TidyRange(lr.code, ll.temps, lr.temps);
    var x: Instr := Bin(op, lr.temps + 1, ll.out, lr.out);
    TidySum(ll.code, lr.code, c, ll.temps, lr.temps);
    TidyOne(x, lr.temps);
    TidySum(ll.code + lr.code, [x], c, lr.temps, lr.temps + 1);
  }

  lemma {:induction false} CallTidy(name: string, args: Exprs, sc: Scope, c: nat)
    requires Under(sc, c)
    ensures TidyLow(LowerCall(name, args, sc, c), c)
    decreases args, 2
  {
    hide Tidy, LowerArgs, Under;
    ArgsTidy(args, sc, c);
    var la := LowerArgs(args, sc, c);
    if la.LowArgs? {
      var x: Instr := Instr.Call(la.temps + 1, name, la.out);
      TidyOne(x, la.temps);
      TidySum(la.code, [x], c, la.temps, la.temps + 1);
    }
  }

  lemma {:induction false} LvalueTidy(e: Expr, sc: Scope, c: nat)
    requires Under(sc, c)
    ensures TidyLv(LowerLvalue(e, sc, c), c)
    decreases e, 1
  {
    hide Tidy, LowerExpr;
    TidyNone(c);
    match e
    case Unary(_, x) => ExprTidy(x, sc, c);
    case _ =>
  }

  lemma {:induction false} ArgsTidy(args: Exprs, sc: Scope, c: nat)
    requires Under(sc, c)
    ensures LowerArgs(args, sc, c).LowArgs? ==>
              Tidy(LowerArgs(args, sc, c).code, c, LowerArgs(args, sc, c).temps)
    decreases args, 1
  {
    hide Tidy, LowerExpr, Under;
    match args
    case NoExprs => TidyNone(c);
    case MoreExprs(e, next) =>
      ExprTidy(e, sc, c);
      var le := LowerExpr(e, sc, c);
      if le.Low? {
        UnderMore(sc, c, le.temps);
        ArgsTidy(next, sc, le.temps);
        var la := LowerArgs(next, sc, le.temps);
        if la.LowArgs? {
          TidySum(le.code, la.code, c, le.temps, la.temps);
        }
      }
  }

  // ----- statements -----

  /** Code, counter and scope after a statement. */
  ghost predicate TidyStmt(r: LowStmt, cx: Context) {
    r.Lowered? ==> Tidy(r.code, cx.temps, r.cx.temps) && Under(r.cx.scope, r.cx.temps)
  }

  lemma {:induction false} StmtTidy(s: Stmt, cx: Context)
    requires Under(cx.scope, cx.temps)
    ensures TidyStmt(LowerStmt(s, cx), cx)
    decreases s, 1
  {
    hide Tidy, LowerExpr, LowerBlock, LowerWhile, LowerChain, LowerIf, Under, Lookup, SetLocal;
    match s
    case Return(e) =>
      ExprTidy(e, cx.scope, cx.temps);
      var low := LowerExpr(e, cx.scope, cx.temps);
      if low.Low? {
        TidyZero(Instr.Return(low.out), low.temps);
        TidySum(low.code, [Instr.Return(low.out)], cx.temps, low.temps, low.temps);
        UnderMore(cx.scope, cx.temps, low.temps);
      }
    case Block(body) => BlockTidy(body, cx);
    case Auto(name, _) =>
      TidyOne(Alloc(cx.temps + 1), cx.temps);
      SetUnder(cx.scope, name, cx.temps, cx.temps + 1);
    case Extrn(_) => TidyNone(cx.temps);
    case Simple(e) =>
      ExprTidy(e, cx.scope, cx.temps);
      var low := LowerExpr(e, cx.scope, cx.temps);
      if low.Low? {
        UnderMore(cx.scope, cx.temps, low.temps);
      }
    case If(links) => IfTidy(links, cx);
    case While(cond, body) => WhileTidy(cond, body, cx);
    case Lable(name) =>
      if name in cx.table {
        TidyZero(Label(Lowering.Numbered(cx, name).table[name]), cx.temps);
      }
    case Goto(name) =>
      if name in cx.table {
        TidyZero(Jump(Lowering.Numbered(cx, name).table[name]), cx.temps);
      }
  }

  lemma SetUnder(sc: Scope, name: string, c: nat, t: nat)
    requires Under(sc, c) && c <= t
    ensures Under(SetLocal(sc, name, t), t)
  {
    forall x: string | Lookup(SetLocal(sc, name, t), x).Local?
      ensures Lookup(SetLocal(sc, name, t), x).n <= t
    {
      SetLookup(sc, name, t, x);
    }
  }

  lemma {:induction false} SetLookup(sc: Scope, name: string, t: nat, x: string)
    ensures Lookup(SetLocal(sc, name, t), x) == Lookup(sc, x)
            || (x == name && Lookup(SetLocal(sc, name, t), x) == Local(t))
    decreases sc
  {
    match sc
    case Globals(_) =>
    case Inner(tab, parent) =>
      if name !in tab {
        SetLookup(parent, name, t, x);
      }
  }

  lemma {:induction false} IfTidy(links: Chain, cx: Context)
    requires Under(cx.scope, cx.temps)
    ensures TidyStmt(LowerIf(links, cx), cx)
    decreases links, 2
  {
    hide Tidy, LowerChain, Under;
    var end := cx.labels + 1;
    ChainTidy(links, end, cx.(labels := end));
    var r := LowerChain(links, end, cx.(labels := end));
    if r.Lowered? {
      TidyZero(Label(end), r.cx.temps);
      TidySum(r.code, [Label(end)], cx.temps, r.cx.temps, r.cx.temps);
    }
  }

  /** Code before and after a block. */
  lemma AroundTidy(a: seq<Instr>, low: Low, b: seq<Instr>, body: seq<Instr>, z: seq<Instr>, c: nat, d: nat)
    requires low.Low? && Tidy(a, c, c) && Tidy(low.code, c, low.temps) && Tidy(b, low.temps, low.temps)
    requires Tidy(body, low.temps, d) && Tidy(z, d, d)
    ensures Tidy(a + low.code + b + body + z, c, d)
  {
    hide Tidy;
    TidySum(a, low.code, c, c, low.temps);
    TidySum(a + low.code, b, c, low.temps, low.temps);
    TidySum(a + low.code + b, body, c, low.temps, d);
    TidySum(a + low.code + b + body, z, c, d, d);
  }

  lemma TidyPair(x: Instr, y: Instr, c: nat)
    requires !Sets(x) && !Sets(y)
    requires forall t :: t in Uses(x) || t in Uses(y) ==> 1 <= t <= c
    ensures Tidy([x, y], c, c)
  {
    hide Tidy, Sets, Uses;
    TidyZero(x, c);
    TidyZero(y, c);
    TidySum([x], [y], c, c, c);
    assert [x] + [y] == [x, y];
  }

  lemma {:induction false} WhileTidy(cond: Expr, body: Stmts, cx: Context)
    requires Under(cx.scope, cx.temps)
    ensures TidyStmt(LowerWhile(cond, body, cx), cx)
    decreases body, 2
  {
    hide Tidy, LowerExpr, LowerBlock, Under;
    var n, c := cx.labels, cx.temps;
    ExprTidy(cond, cx.scope, c);
    var low := LowerExpr(cond, cx.scope, c);
    if low.Low? {
      UnderMore(cx.scope, c, low.temps);
      var cxb := cx.(temps := low.temps, labels := n + 3);
      BlockTidy(body, cxb);
      var r := LowerBlock(body, cxb);
      if r.Lowered? {
        TidyZero(Label(n + 1), c);
        TidyPair(Branch(low.out, n + 2, n + 3), Label(n + 2), low.temps);
        TidyPair(Jump(n + 1), Label(n + 3), r.cx.temps);
        AroundTidy([Label(n + 1)], low, [Branch(low.out, n + 2, n + 3), Label(n + 2)], r.code,
                   [Jump(n + 1), Label(n + 3)], c, r.cx.temps);
      }
    }
  }

  lemma {:induction false} LinkTidy(cond: Expr, body: Stmts, end: nat, cx: Context)
    requires Under(cx.scope, cx.temps)
    ensures TidyStmt(LowerLink(cond, body, end, cx), cx)
    decreases body, 2
  {
    hide Tidy, LowerExpr, LowerBlock, Under;
    var n, c := cx.labels, cx.temps;
    ExprTidy(cond, cx.scope, c);
    var low := LowerExpr(cond, cx.scope, c);
    if low.Low? {
      UnderMore(cx.scope, c, low.temps);
      var cxb := cx.(temps := low.temps, labels := n + 2);
      BlockTidy(body, cxb);
      var r := LowerBlock(body, cxb);
      if r.Lowered? {
        TidyNone(c);
        TidyPair(Branch(low.out, n + 1, n + 2), Label(n + 1), low.temps);
        TidyPair(Jump(end), Label(n + 2), r.cx.temps);
        AroundTidy([], low, [Branch(low.out, n + 1, n + 2), Label(n + 1)], r.code,
                   [Jump(end), Label(n + 2)], c, r.cx.temps);
        assert [] + low.code == low.code;
      }
    }
  }

  lemma {:induction false} BlockTidy(body: Stmts, cx: Context)
    requires Under(cx.scope, cx.temps)
    ensures TidyStmt(LowerBlock(body, cx), cx)
    decreases body, 1
  {
    hide Tidy, LowerStmts, BlockTable;
    var inner := cx.(scope := Inner(BlockTable(body), cx.scope));
    TableUnder(body, cx.scope, cx.temps);
    StmtsTidy(body, inner);
    if LowerStmts(body, inner).Lowered? {
      TidyRange(LowerStmts(body, inner).code, cx.temps, LowerStmts(body, inner).cx.temps);
    }
  }

  lemma TidyRange(code: seq<Instr>, c: nat, d: nat)
    requires Tidy(code, c, d)
    ensures c <= d
  {
  }

  lemma {:induction false} TableZero(ss: Stmts, x: string)
    ensures x in BlockTable(ss) ==> BlockTable(ss)[x] == 0
    decreases ss
  {
    match ss
    case NoStmts =>
    case MoreStmts(_, next) => TableZero(next, x);
  }

  lemma TableUnder(body: Stmts, sc: Scope, c: nat)
    requires Under(sc, c)
    ensures Under(Inner(BlockTable(body), sc), c)
  {
    forall x: string | Lookup(Inner(BlockTable(body), sc), x).Local?
      ensures Lookup(Inner(BlockTable(body), sc), x).n <= c
    {
      TableZero(body, x);
    }
  }

  lemma {:induction false} StmtsTidy(ss: Stmts, cx: Context)
    requires Under(cx.scope, cx.temps)
    ensures TidyStmt(LowerStmts(ss, cx), cx)
    decreases ss, 0
  {
    hide Tidy, LowerStmt, Under;
    match ss
    case NoStmts => TidyNone(cx.temps);
    case MoreStmts(s, next) =>
      StmtTidy(s, cx);
      var l1 := LowerStmt(s, cx);
      if l1.Lowered? {
        StmtsTidy(next, l1.cx);
        var l2 := LowerStmts(next, l1.cx);
        if l2.Lowered? {
          TidySum(l1.code, l2.code, cx.temps, l1.cx.temps, l2.cx.temps);
        }
      }
  }

  lemma {:induction false} ChainTidy(links: Chain, end: nat, cx: Context)
    requires Under(cx.scope, cx.temps)
    ensures TidyStmt(LowerChain(links, end, cx), cx)
    decreases links, 1
  {
    hide Tidy, LowerLink, LowerBlock, Under;
    match links
    case NoChain => TidyNone(cx.temps);
    case Else(body) => BlockTidy(body, cx);
    case Link(cond, body, chain) =>
      LinkTidy(cond, body, end, cx);
      var l1 := LowerLink(cond, body, end, cx);
      if l1.Lowered? {
        ChainTidy(chain, end, l1.cx);
        var l2 := LowerChain(chain, end, l1.cx);
        if l2.Lowered? {
          TidySum(l1.code, l2.code, cx.temps, l1.cx.temps, l2.cx.temps);
        }
      }
  }
}
