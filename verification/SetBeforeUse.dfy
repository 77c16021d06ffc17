/** In lowered code every temp of an expression is set in the same straight piece of code that uses
    it; only the temp of an `auto` is set in one place and used in others. */
module SetBeforeUse {
  import opened Words
  import opened Ast
  import opened Scopes
  import opened Ir
  import opened Lowering
  import opened CodeShape
  import opened Codegen
  import opened Numbering
  import Tok = Tokens
  import Source

  /** The temp whose value the instruction takes for an address. */
  predicate Through(x: Instr, t: nat) {
    (x.Load? && x.addr == t) || (x.Store? && x.addr == t) || (x.Address? && x.src == t)
  }

  // ----- expressions -----

  /** Every temp is set before it is used, except the temps in A, which are addresses. */
  ghost predicate Fed(code: seq<Instr>, A: set<nat>) {
    forall j, t :: 0 <= j < |code| && t in Uses(code[j]) ==> FedUseAt(code, j, t, A)
  }

  ghost predicate FedUseAt(code: seq<Instr>, j: int, t: nat, A: set<nat>)
    requires 0 <= j < |code|
  {
    t in Dests(code[..j]) || (t in A && Through(code[j], t))
  }

  /** The temps of the variables in scope are in A. */
  ghost predicate Among(sc: Scope, A: set<nat>) {
    forall x: string :: Lookup(sc, x).Local? && Lookup(sc, x).n != 0 ==> Lookup(sc, x).n in A
  }

  lemma FedSum(a: seq<Instr>, b: seq<Instr>, A: set<nat>)
    requires Fed(a, A) && Fed(b, A)
    ensures Fed(a + b, A)
  {
    hide Uses, Dests, Through;
    var code := a + b;
    forall j, t | 0 <= j < |code| && t in Uses(code[j])
      ensures FedUseAt(code, j, t, A)
    {
      if j < |a| {
        assert code[..j] == a[..j] && code[j] == a[j];
        assert FedUseAt(a, j, t, A);
      } else {
        var k := j - |a|;
        assert code[j] == b[k];
        assert FedUseAt(b, k, t, A);
        assert code[..j] == a + b[..k];
        DestsSum(a, b[..k]);
      }
    }
  }

  lemma FedSnoc(a: seq<Instr>, x: Instr, A: set<nat>)
    requires Fed(a, A) && forall t :: t in Uses(x) ==> t in Dests(a) || (t in A && Through(x, t))
    ensures Fed(a + [x], A)
  {
    hide Uses, Dests, Through;
    var code := a + [x];
    forall j, t | 0 <= j < |code| && t in Uses(code[j])
      ensures FedUseAt(code, j, t, A)
    {
      if j < |a| {
        assert code[..j] == a[..j] && code[j] == a[j];
        assert FedUseAt(a, j, t, A);
      } else {
        assert code[..j] == a;
      }
    }
  }

  lemma FedNone(A: set<nat>)
    ensures Fed([], A)
  {
  }

  lemma InUpto(code: seq<Instr>, c: nat, d: nat, t: nat)
    requires Tidy(code, c, d) && c < t <= d
    ensures t in Dests(code)
  {
    assert Upto(c, d)[t - c - 1] == t;
  }

  ghost predicate FedLow(low: Low, A: set<nat>) {
    low.Low? ==> Fed(low.code, A)
  }

  /** An lvalue's address is set in its code, or is a variable's. */
  ghost predicate FedLv(lv: LowLv, A: set<nat>) {
    lv.LowLv? ==> Fed(lv.code, A) && (lv.out.AtTemp? ==> lv.out.t in Dests(lv.code) || lv.out.t in A)
  }

  lemma LvUses(lv: LValue, v: nat, d: nat)
    ensures forall u :: u in Uses(LoadLv(lv, d)) ==> lv.AtTemp? && u == lv.t
    ensures forall u :: u in Uses(AddressLv(lv, d)) ==> lv.AtTemp? && u == lv.t
    ensures forall u :: u in Uses(StoreLv(lv, v)) ==> u == v || (lv.AtTemp? && u == lv.t)
    ensures lv.AtTemp? ==>
              Through(LoadLv(lv, d), lv.t) && Through(AddressLv(lv, d), lv.t) && Through(StoreLv(lv, v), lv.t)
  {
  }

  lemma FedLoad(code: seq<Instr>, lv: LValue, d: nat, A: set<nat>)
    requires Fed(code, A) && (lv.AtTemp? ==> lv.t in Dests(code) || lv.t in A)
    ensures Fed(code + [LoadLv(lv, d)], A) && Fed(code + [AddressLv(lv, d)], A)
  {
    hide Fed, Uses, Dests, LoadLv, AddressLv, Through;
    LvUses(lv, 0, d);
    FedSnoc(code, LoadLv(lv, d), A);
    FedSnoc(code, AddressLv(lv, d), A);
  }

  lemma FedStore(code: seq<Instr>, lv: LValue, v: nat, A: set<nat>)
    requires Fed(code, A) && (lv.AtTemp? ==> lv.t in Dests(code) || lv.t in A) && v in Dests(code)
    ensures Fed(code + [StoreLv(lv, v)], A)
  {
    hide Fed, Uses, Dests, StoreLv, Through;
    LvUses(lv, v, 0);
    FedSnoc(code, StoreLv(lv, v), A);
  }

  lemma VarFed(sc: Scope, name: string, c: nat, A: set<nat>)
    requires Among(sc, A)
    ensures FedLv(LowerVar(sc, name, c), A)
  {
    FedNone(A);
  }

  lemma {:induction false} ExprFed(e: Expr, sc: Scope, c: nat, A: set<nat>)
    requires Under(sc, c) && Among(sc, A)
    ensures FedLow(LowerExpr(e, sc, c), A)
    decreases e, 1
  {
    hide FedLow, LowerBump, LowerAssign, LowerBinary, LowerCall, LowerAddressOf, LowerDeref, LowerNeg, LowerNot,
      LowerAtom, Under, Among;
    match e
    case Atom(kind, value, n) => AtomFed(kind, value, n, sc, c, A);
    case Unary(op, x) =>
      LvalueUseFed(x, if op == Tok.Dec then BinOp.Sub else BinOp.Add, sc, c, A);
      OperandFed(x, sc, c, A);
      FatalFed(A);
    case Binary(l, op, r) =>
      if op == Tok.Assign {
        AssignFed(l, r, sc, c, A);
      } else {
        BinaryFed(l, op, r, sc, c, A);
      }
    case FunctionCall(name, args) => CallFed(name, args, sc, c, A);
  }

  lemma FatalFed(A: set<nat>)
    ensures FedLow(Fatal, A)
  {
  }

  lemma AtomFed(kind: Tok.Kind, value: string, n: nat, sc: Scope, c: nat, A: set<nat>)
    requires Among(sc, A)
    ensures FedLow(LowerAtom(kind, value, n, sc, c), A)
  {
    hide Fed, Wrap, LowerVar, Among, LoadLv;
    FedNone(A);
    FedSnoc([], Const(c + 1, Wrap(n)), A);
    FedSnoc([], Data(c + 1, n), A);
    VarFed(sc, value, c, A);
    var lv := LowerVar(sc, value, c);
    if lv.LowLv? {
      FedLoad([], lv.out, c + 1, A);
      assert [] + [LoadLv(lv.out, c + 1)] == [LoadLv(lv.out, c + 1)];
    }
    assert [] + [Const(c + 1, Wrap(n))] == [Const(c + 1, Wrap(n))];
    assert [] + [Data(c + 1, n)] == [Data(c + 1, n)];
  }

  lemma {:induction false} LvalueUseFed(x: Expr, op: BinOp, sc: Scope, c: nat, A: set<nat>)
    requires Under(sc, c) && Among(sc, A)
    ensures FedLow(LowerAddressOf(x, sc, c), A)
    ensures FedLow(LowerBump(x, op, sc, c), A)
    decreases x, 2
  {
    hide Fed, LowerLvalue, Under, Among, AddressLv, LoadLv, StoreLv, Dests;
    LvalueFed(x, sc, c, A);
    var lw := LowerLvalue(x, sc, c);
    if lw.LowLv? {
      FedLoad(lw.code, lw.out, lw.temps + 1, A);
      BumpFed(lw, op, A);
    }
  }

  lemma BumpFed(lw: LowLv, op: BinOp, A: set<nat>)
    requires lw.LowLv? && FedLv(lw, A)
    ensures Fed(lw.code + [LoadLv(lw.out, lw.temps + 1), Const(lw.temps + 2, 1),
                           Bin(op, lw.temps + 3, lw.temps + 1, lw.temps + 2), StoreLv(lw.out, lw.temps + 3)], A)
  {
    hide Fed, Dests, LoadLv, StoreLv;
    var d, lv := lw.temps, lw.out;
    var a := lw.code + [LoadLv(lv, d + 1)];
    var b := a + [Const(d + 2, 1)];
    var x := b + [Bin(op, d + 3, d + 1, d + 2)];
    FedLoad(lw.code, lv, d + 1, A);
    SnocDest(lw.code, LoadLv(lv, d + 1)) by { LoadSets(lv, d + 1); }
    FedSnoc(a, Const(d + 2, 1), A);
    SnocDest(a, Const(d + 2, 1));
    LoadSets(lv, d + 1);
    FedSnoc(b, Bin(op, d + 3, d + 1, d + 2), A);
    SnocDest(b, Bin(op, d + 3, d + 1, d + 2));
    FedStore(x, lv, d + 3, A);
    assert x + [StoreLv(lv, d + 3)]
        == lw.code + [LoadLv(lv, d + 1), Const(d + 2, 1), Bin(op, d + 3, d + 1, d + 2), StoreLv(lv, d + 3)];
  }

  lemma LoadSets(lv: LValue, d: nat)
    ensures Sets(LoadLv(lv, d)) && Dest(LoadLv(lv, d)) == d
  {
  }

  /** One more instruction sets its own temp and keeps the earlier ones. */
  lemma SnocDest(a: seq<Instr>, x: Instr)
    requires Sets(x)
    ensures Dest(x) in Dests(a + [x]) && forall t :: t in Dests(a) ==> t in Dests(a + [x])
  {
    hide Sets, Dest;
    DestsSum(a, [x]);
    assert Dests([x]) == [Dest(x)] + Dests([]) by { assert [x][1..] == []; }
    assert Dest(x) in Dests([x]);
  }

  lemma {:induction false} OperandFed(x: Expr, sc: Scope, c: nat, A: set<nat>)
    requires Under(sc, c) && Among(sc, A)
    ensures FedLow(LowerDeref(x, sc, c), A)
    ensures FedLow(LowerNeg(x, sc, c), A)
    ensures FedLow(LowerNot(x, sc, c), A)
    decreases x, 2
  {
    hide Fed, LowerExpr, Under, Among, Tidy, Dests;
    ExprFed(x, sc, c, A);
    ExprTidy(x, sc, c);
    var lx := LowerExpr(x, sc, c);
    if lx.Low? {
      InUpto(lx.code, c, lx.temps, lx.out);
      TailFed(lx.code, lx.out, lx.temps, A);
    }
  }

  lemma TailFed(code: seq<Instr>, t: nat, d: nat, A: set<nat>)
    requires Fed(code, A) && t in Dests(code)
    ensures Fed(code + [Instr.Load(d + 1, t)], A)
    ensures Fed(code + [Instr.Neg(d + 1, t)], A)
    ensures Fed(code + [Const(d + 1, 0), Bin(BinOp.Eq, d + 2, t, d + 1)], A)
  {
    hide Fed, Dests;
    FedSnoc(code, Instr.Load(d + 1, t), A);
    FedSnoc(code, Instr.Neg(d + 1, t), A);
    FedSnoc(code, Const(d + 1, 0), A);
    SnocDest(code, Const(d + 1, 0));
    FedSnoc(code + [Const(d + 1, 0)], Bin(BinOp.Eq, d + 2, t, d + 1), A);
    assert code + [Const(d + 1, 0)] + [Bin(BinOp.Eq, d + 2, t, d + 1)]
        == code + [Const(d + 1, 0), Bin(BinOp.Eq, d + 2, t, d + 1)];
  }

  lemma {:induction false} AssignFed(l: Expr, r: Expr, sc: Scope, c: nat, A: set<nat>)
    requires Under(sc, c) && Among(sc, A)
    ensures FedLow(LowerAssign(l, r, sc, c), A)
    decreases Binary(l, Tok.Assign, r), 0
  {
    hide Fed, LowerExpr, LowerLvalue, Under, Among, Tidy, Dests, StoreLv;
    ExprFed(r, sc, c, A);
    ExprTidy(r, sc, c);
    var lr := LowerExpr(r, sc, c);
    if lr.Low? {
      UnderMore(sc, c, lr.temps);
      LvalueFed(l, sc, lr.temps, A);
      var ll := LowerLvalue(l, sc, lr.temps);
      if ll.LowLv? {
        InUpto(lr.code, c, lr.temps, lr.out);
        FedSum(lr.code, ll.code, A);
        DestsSum(lr.code, ll.code);
        FedStore(lr.code + ll.code, ll.out, lr.out, A);
      }
    }
  }

  lemma {:induction false} BinaryFed(l: Expr, op: Tok.Kind, r: Expr, sc: Scope, c: nat, A: set<nat>)
    requires Under(sc, c) && Among(sc, A)
    ensures FedLow(LowerBinary(l, op, r, sc, c), A)
    decreases Binary(l, op, r), 0
  {
    hide FedLow, LowerExpr, Under, Among, LowerBinary;
    ExprFed(l, sc, c, A);
    var ll := LowerExpr(l, sc, c);
    if ll.Low? {
      UnderMore(sc, c, ll.temps);
      ExprFed(r, sc, ll.temps, A);
    }
    BothFed(l, op, r, sc, c, A);
  }

  lemma BothFed(l: Expr, op: Tok.Kind, r: Expr, sc: Scope, c: nat, A: set<nat>)
    requires Under(sc, c)
    requires
      var ll := LowerExpr(l, sc, c);
      FedLow(ll, A) && (ll.Low? ==> FedLow(LowerExpr(r, sc, ll.temps), A))
    ensures FedLow(LowerBinary(l, op, r, sc, c), A)
  {
    hide Fed, LowerExpr, Under, Source.OperatorOf, LowerBinary, Tidy, Dests;
    if LowerBinary(l, op, r, sc, c).Low? {
      BinaryCode(l, op, r, sc, c);
      var ll := LowerExpr(l, sc, c);
      var lr := LowerExpr(r, sc, ll.temps);
      ExprTidy(l, sc, c);
      UnderMore(sc, c, ll.temps);
      ExprTidy(r, sc, ll.temps);
      InUpto(ll.code, c, ll.temps, ll.out);
      InUpto(lr.code, ll.temps, lr.temps, lr.out);
      FedSum(ll.code, lr.code, A);
      DestsSum(ll.code, lr.code);
      FedSnoc(ll.code + lr.code, Bin(Source.OperatorOf(op).value, lr.temps + 1, ll.out, lr.out), A);
    }
  }

  lemma {:induction false} CallFed(name: string, args: Exprs, sc: Scope, c: nat, A: set<nat>)
    requires Under(sc, c) && Among(sc, A)
    ensures FedLow(LowerCall(name, args, sc, c), A)
    decreases args, 2
  {
    hide Fed, LowerArgs, Under, Among, Dests;
    ArgsFed(args, sc, c, A);
    var la := LowerArgs(args, sc, c);
    if la.LowArgs? {
      FedSnoc(la.code, Instr.Call(la.temps + 1, name, la.out), A);
    }
  }

  lemma {:induction false} LvalueFed(e: Expr, sc: Scope, c: nat, A: set<nat>)
    requires Under(sc, c) && Among(sc, A)
    ensures FedLv(LowerLvalue(e, sc, c), A)
    decreases e, 1
  {
    hide Fed, LowerExpr, LowerVar, Dests, Tidy, Under, Among;
    match e
    case Atom(_, name, _) => VarFed(sc, name, c, A);
    case Unary(_, x) =>
      ExprFed(x, sc, c, A);
      ExprTidy(x, sc, c);
      var lx := LowerExpr(x, sc, c);
      if lx.Low? {
        InUpto(lx.code, c, lx.temps, lx.out);
      }
    case _ =>
  }

  lemma {:induction false} ArgsFed(args: Exprs, sc: Scope, c: nat, A: set<nat>)
    requires Under(sc, c) && Among(sc, A)
    ensures
      var la := LowerArgs(args, sc, c);
      la.LowArgs? ==> Fed(la.code, A) && forall t :: t in la.out ==> t in Dests(la.code)
    decreases args, 1
  {
    hide Fed, LowerExpr, Under, Among, Dests, Tidy;
    match args
    case NoExprs => FedNone(A);
    case MoreExprs(e, next) =>
      ExprFed(e, sc, c, A);
      ExprTidy(e, sc, c);
      var le := LowerExpr(e, sc, c);
      if le.Low? {
        UnderMore(sc, c, le.temps);
        ArgsFed(next, sc, le.temps, A);
        var la := LowerArgs(next, sc, le.temps);
        if la.LowArgs? {
          InUpto(le.code, c, le.temps, le.out);
          FedSum(le.code, la.code, A);
          DestsSum(le.code, la.code);
        }
      }
  }

  // ----- statements -----

  /** Temp t is set earlier in the code, with no label in between. */
  ghost predicate Served(code: seq<Instr>, j: int, t: nat) {
    exists i :: 0 <= i < j < |code| && Sets(code[i]) && Dest(code[i]) == t && LabelFree(code, i, j)
  }

  ghost predicate LabelFree(code: seq<Instr>, i: int, j: int) {
    forall k :: i < k <= j && 0 <= k < |code| ==> !code[k].Label?
  }

  /** Every temp is set on the straight way to its use, except parameters and the addresses in A. */
  ghost predicate Supplied(code: seq<Instr>, A: set<nat>, n: nat) {
    forall j, t :: 0 <= j < |code| && t in Uses(code[j]) ==>
                     Served(code, j, t) || (t in A && Through(code[j], t)) || 1 <= t <= n
  }

  lemma ServedAt(code: seq<Instr>, pc: nat, part: seq<Instr>, j: int, t: nat)
    requires pc + |part| <= |code| && code[pc..pc + |part|] == part && Served(part, j, t)
    ensures Served(code, pc + j, t)
  {
    hide Sets, Dest;
    var i :| 0 <= i < j < |part| && Sets(part[i]) && Dest(part[i]) == t && LabelFree(part, i, j);
    assert forall k :: 0 <= k < |part| ==> code[pc + k] == part[k];
    forall k | pc + i < k <= pc + j && 0 <= k < |code|
      ensures !code[k].Label?
    {
      assert code[k] == part[k - pc];
    }
    assert LabelFree(code, pc + i, pc + j) && code[pc + i] == part[i];
  }

  lemma SuppliedSum(a: seq<Instr>, b: seq<Instr>, A: set<nat>, n: nat)
    requires Supplied(a, A, n) && Supplied(b, A, n)
    ensures Supplied(a + b, A, n)
  {
    hide Uses, Served, Through;
    var code := a + b;
    forall j, t | 0 <= j < |code| && t in Uses(code[j])
      ensures Served(code, j, t) || (t in A && Through(code[j], t)) || 1 <= t <= n
    {
      if j < |a| {
        assert code[0..0 + |a|] == a;
        if Served(a, j, t) {
          ServedAt(code, 0, a, j, t);
        }
      } else {
        assert code[|a|..|a| + |b|] == b;
        assert code[j] == b[j - |a|];
        if Served(b, j - |a|, t) {
          ServedAt(code, |a|, b, j - |a|, t);
        }
      }
    }
  }

  lemma Useless(code: seq<Instr>, A: set<nat>, n: nat)
    requires forall x :: x in code ==> Uses(x) == []
    ensures Supplied(code, A, n)
  {
    hide Uses;
  }

  lemma {:induction false} DestPlace(code: seq<Instr>, t: nat) returns (i: nat)
    requires t in Dests(code)
    ensures i < |code| && Sets(code[i]) && Dest(code[i]) == t
    decreases |code|
  {
    hide Sets, Dest;
    if Sets(code[0]) && Dest(code[0]) == t {
      i := 0;
    } else {
      var k := DestPlace(code[1..], t);
      i := k + 1;
    }
  }

  lemma FedSupplied(code: seq<Instr>, A: set<nat>, n: nat)
    requires Fed(code, A) && forall k :: 0 <= k < |code| ==> !code[k].Label?
    ensures Supplied(code, A, n)
  {
    hide Uses, Dests, Through, Sets, Dest;
    forall j, t | 0 <= j < |code| && t in Uses(code[j])
      ensures Served(code, j, t) || (t in A && Through(code[j], t))
    {
      assert FedUseAt(code, j, t, A);
      if t in Dests(code[..j]) {
        var i := DestPlace(code[..j], t);
        assert code[i] == code[..j][i];
        assert LabelFree(code, i, j);
      }
    }
  }

  lemma NoLabels(code: seq<Instr>, x: Instr)
    requires Plain(code) && !x.Label?
    ensures forall k :: 0 <= k < |code + [x]| ==> !(code + [x])[k].Label?
    ensures forall k :: 0 <= k < |code| ==> !code[k].Label?
  {
  }

  /** An expression's code, and the instruction that uses its value. */
  lemma ExprSupplied(e: Expr, sc: Scope, c: nat, x: Instr, A: set<nat>, n: nat)
    requires Under(sc, c) && Among(sc, A) && LowerExpr(e, sc, c).Low?
    requires !x.Label? && Uses(x) == [LowerExpr(e, sc, c).out]
    ensures Supplied(LowerExpr(e, sc, c).code, A, n)
    ensures Supplied(LowerExpr(e, sc, c).code + [x], A, n)
    ensures Fed(LowerExpr(e, sc, c).code, A) && Fed(LowerExpr(e, sc, c).code + [x], A)
    ensures Plain(LowerExpr(e, sc, c).code)
  {
    hide LowerExpr, Fed, Dests, Tidy, Uses, Plain, Supplied, Under, Among;
    var low := LowerExpr(e, sc, c);
    ExprFed(e, sc, c, A);
    ExprTidy(e, sc, c);
    ExprPlain(e, sc, c);
    InUpto(low.code, c, low.temps, low.out);
    FedSnoc(low.code, x, A);
    NoLabels(low.code, x);
    FedSupplied(low.code, A, n);
    FedSupplied(low.code + [x], A, n);
  }

  /** What holds of a statement's code when the temps of all its `auto`s are in A. */
  ghost predicate SuppliedStmt(r: LowStmt, A: set<nat>, n: nat) {
    r.Lowered? ==> Supplied(r.code, A, n) && Among(r.cx.scope, A)
  }

  ghost predicate Allocating(r: LowStmt, A: set<nat>) {
    r.Lowered? ==> forall t :: t in AllocTemps(r.code) ==> t in A
  }

  lemma {:induction false} StmtSupplied(s: Stmt, cx: Context, A: set<nat>, n: nat)
    requires Under(cx.scope, cx.temps) && Among(cx.scope, A) && Allocating(LowerStmt(s, cx), A)
    ensures SuppliedStmt(LowerStmt(s, cx), A, n)
    decreases s, 1
  {
    hide LowerExpr, LowerBlock, LowerWhile, LowerIf, Lookup, SetLocal, Supplied, Under, AllocTemps, Among, Plain;
    match s
    case Return(e) =>
      var low := LowerExpr(e, cx.scope, cx.temps);
      if low.Low? {
        ExprSupplied(e, cx.scope, cx.temps, Instr.Return(low.out), A, n);
      }
    case Block(body) => BlockSupplied(body, cx, A, n);
    case Auto(name, _) =>
      Useless([Alloc(cx.temps + 1)], A, n);
      OneAlloc(Alloc(cx.temps + 1));
      if LowerStmt(s, cx).Lowered? {
        assert cx.temps + 1 in AllocTemps([Alloc(cx.temps + 1)]);
        SetAmong(cx.scope, name, cx.temps + 1, A);
      }
    case Extrn(_) => Useless([], A, n);
    case Simple(e) =>
      var low := LowerExpr(e, cx.scope, cx.temps);
      if low.Low? {
        ExprSupplied(e, cx.scope, cx.temps, Instr.Return(low.out), A, n);
      }
    case If(links) => IfSupplied(links, cx, A, n);
    case While(cond, body) => WhileSupplied(cond, body, cx, A, n);
    case Lable(name) =>
      if name in cx.table {
        Useless([Label(Lowering.Numbered(cx, name).table[name])], A, n);
      }
    case Goto(name) =>
      if name in cx.table {
        Useless([Jump(Lowering.Numbered(cx, name).table[name])], A, n);
      }
  }

  lemma SetAmong(sc: Scope, name: string, t: nat, A: set<nat>)
    requires Among(sc, A) && t in A
    ensures Among(SetLocal(sc, name, t), A)
  {
    forall x: string | Lookup(SetLocal(sc, name, t), x).Local? && Lookup(SetLocal(sc, name, t), x).n != 0
      ensures Lookup(SetLocal(sc, name, t), x).n in A
    {
      SetLookup(sc, name, t, x);
    }
  }

  lemma AllocatingSum(a: seq<Instr>, b: seq<Instr>, A: set<nat>)
    requires forall t :: t in AllocTemps(a + b) ==> t in A
    ensures forall t :: t in AllocTemps(a) || t in AllocTemps(b) ==> t in A
  {
    hide AllocTemps;
    AllocTempsSum(a, b);
  }

  lemma {:induction false} IfSupplied(links: Chain, cx: Context, A: set<nat>, n: nat)
    requires Under(cx.scope, cx.temps) && Among(cx.scope, A) && Allocating(LowerIf(links, cx), A)
    ensures SuppliedStmt(LowerIf(links, cx), A, n)
    decreases links, 2
  {
    hide LowerChain, Supplied, Under, AllocTemps, Among;
    var end := cx.labels + 1;
    var r := LowerChain(links, end, cx.(labels := end));
    if r.Lowered? {
      AllocatingSum(r.code, [Label(end)], A);
      ChainSupplied(links, end, cx.(labels := end), A, n);
      Useless([Label(end)], A, n);
      SuppliedSum(r.code, [Label(end)], A, n);
    }
  }

  lemma {:induction false} WhileSupplied(cond: Expr, body: Stmts, cx: Context, A: set<nat>, n: nat)
    requires Under(cx.scope, cx.temps) && Among(cx.scope, A) && Allocating(LowerWhile(cond, body, cx), A)
    ensures SuppliedStmt(LowerWhile(cond, body, cx), A, n)
    decreases body, 2
  {
    hide LowerExpr, LowerBlock, Supplied, Under, AllocTemps, Among, Plain;
    var k, c := cx.labels, cx.temps;
    var low := LowerExpr(cond, cx.scope, c);
    if low.Low? {
      var cxb := cx.(temps := low.temps, labels := k + 3);
      var r := LowerBlock(body, cxb);
      if r.Lowered? {
        UnderMore(cx.scope, c, low.temps);
        AroundSupplied([Label(k + 1)], cond, cx.scope, c, Branch(low.out, k + 2, k + 3), k + 2, r.code,
                       [Jump(k + 1), Label(k + 3)], A, n);
        BlockSupplied(body, cxb, A, n);
        AroundSupplied([Label(k + 1)], cond, cx.scope, c, Branch(low.out, k + 2, k + 3), k + 2, r.code,
                       [Jump(k + 1), Label(k + 3)], A, n);
      }
    }
  }

  lemma {:induction false} LinkSupplied(cond: Expr, body: Stmts, end: nat, cx: Context, A: set<nat>, n: nat)
    requires Under(cx.scope, cx.temps) && Among(cx.scope, A) && Allocating(LowerLink(cond, body, end, cx), A)
    ensures SuppliedStmt(LowerLink(cond, body, end, cx), A, n)
    decreases body, 2
  {
    hide LowerExpr, LowerBlock, Supplied, Under, AllocTemps, Among, Plain;
    var k, c := cx.labels, cx.temps;
    var low := LowerExpr(cond, cx.scope, c);
    if low.Low? {
      var cxb := cx.(temps := low.temps, labels := k + 2);
      var r := LowerBlock(body, cxb);
      if r.Lowered? {
        UnderMore(cx.scope, c, low.temps);
        assert [] + low.code == low.code;
        AroundSupplied([], cond, cx.scope, c, Branch(low.out, k + 1, k + 2), k + 1, r.code, [Jump(end), Label(k + 2)],
                       A, n);
        BlockSupplied(body, cxb, A, n);
        AroundSupplied([], cond, cx.scope, c, Branch(low.out, k + 1, k + 2), k + 1, r.code, [Jump(end), Label(k + 2)],
                       A, n);
      }
    }
  }

  /** A condition and a block with the labels around them. */
  lemma AroundSupplied(top: seq<Instr>, cond: Expr, sc: Scope, c: nat, br: Instr, inner: nat, block: seq<Instr>,
                       z: seq<Instr>, A: set<nat>, n: nat)
    requires Under(sc, c) && Among(sc, A) && LowerExpr(cond, sc, c).Low?
    requires br.Branch? && br.cond == LowerExpr(cond, sc, c).out
    requires forall x :: x in top || x in z ==> Uses(x) == []
    requires forall t :: t in AllocTemps(top + LowerExpr(cond, sc, c).code + [br, Label(inner)] + block + z) ==> t in A
    ensures forall t :: t in AllocTemps(block) ==> t in A
    ensures Supplied(block, A, n) ==>
              Supplied(top + LowerExpr(cond, sc, c).code + [br, Label(inner)] + block + z, A, n)
  {
    hide LowerExpr, Supplied, Under, AllocTemps, Among, Plain, Fed;
    var code := LowerExpr(cond, sc, c).code;
    AllocatingSum(top + code + [br, Label(inner)] + block, z, A);
    AllocatingSum(top + code + [br, Label(inner)], block, A);
    if Supplied(block, A, n) {
      ExprSupplied(cond, sc, c, br, A, n);
      Useless(top, A, n);
      Useless([Label(inner)], A, n);
      Useless(z, A, n);
      SuppliedSum(top, code + [br], A, n);
      SuppliedSum(top + (code + [br]), [Label(inner)], A, n);
      SuppliedSum(top + (code + [br]) + [Label(inner)], block, A, n);
      SuppliedSum(top + (code + [br]) + [Label(inner)] + block, z, A, n);
      assert top + (code + [br]) + [Label(inner)] == top + code + [br, Label(inner)];
    }
  }

  lemma TableAmong(body: Stmts, sc: Scope, A: set<nat>)
    requires Among(sc, A)
    ensures Among(Inner(BlockTable(body), sc), A)
  {
    forall x: string | Lookup(Inner(BlockTable(body), sc), x).Local? && Lookup(Inner(BlockTable(body), sc), x).n != 0
      ensures Lookup(Inner(BlockTable(body), sc), x).n in A
    {
      TableZero(body, x);
    }
  }

  lemma {:induction false} BlockSupplied(body: Stmts, cx: Context, A: set<nat>, n: nat)
    requires Under(cx.scope, cx.temps) && Among(cx.scope, A) && Allocating(LowerBlock(body, cx), A)
    ensures SuppliedStmt(LowerBlock(body, cx), A, n)
    decreases body, 1
  {
    hide LowerStmts, BlockTable, Supplied, AllocTemps, Under, Among;
    TableUnder(body, cx.scope, cx.temps);
    TableAmong(body, cx.scope, A);
    StmtsSupplied(body, cx.(scope := Inner(BlockTable(body), cx.scope)), A, n);
  }

  lemma {:induction false} StmtsSupplied(ss: Stmts, cx: Context, A: set<nat>, n: nat)
    requires Under(cx.scope, cx.temps) && Among(cx.scope, A) && Allocating(LowerStmts(ss, cx), A)
    ensures SuppliedStmt(LowerStmts(ss, cx), A, n)
    decreases ss, 0
  {
    hide LowerStmt, Supplied, AllocTemps, Under, Among, Tidy;
    match ss
    case NoStmts => Useless([], A, n);
    case MoreStmts(s, next) =>
      var l1 := LowerStmt(s, cx);
      if l1.Lowered? {
        var l2 := LowerStmts(next, l1.cx);
        if l2.Lowered? {
          AllocatingSum(l1.code, l2.code, A);
          StmtTidy(s, cx);
          StmtSupplied(s, cx, A, n);
          StmtsSupplied(next, l1.cx, A, n);
          SuppliedSum(l1.code, l2.code, A, n);
        }
      }
  }

  lemma {:induction false} ChainSupplied(links: Chain, end: nat, cx: Context, A: set<nat>, n: nat)
    requires Under(cx.scope, cx.temps) && Among(cx.scope, A) && Allocating(LowerChain(links, end, cx), A)
    ensures SuppliedStmt(LowerChain(links, end, cx), A, n)
    decreases links, 1
  {
    hide LowerLink, LowerBlock, Supplied, AllocTemps, Under, Among, Tidy;
    match links
    case NoChain => Useless([], A, n);
    case Else(body) => BlockSupplied(body, cx, A, n);
    case Link(cond, body, chain) =>
      var l1 := LowerLink(cond, body, end, cx);
      if l1.Lowered? {
        var l2 := LowerChain(chain, end, l1.cx);
        if l2.Lowered? {
          AllocatingSum(l1.code, l2.code, A);
          LinkTidy(cond, body, end, cx);
          LinkSupplied(cond, body, end, cx, A, n);
          ChainSupplied(chain, end, l1.cx, A, n);
          SuppliedSum(l1.code, l2.code, A, n);
        }
      }
  }
}
