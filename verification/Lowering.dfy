/** Lowering of syntax trees to IR code: what src/ir.c computes, as functions.
    `Fatal` is the exit through `ir_fatal`. */
module Lowering {
  import opened Words
  import opened Ast
  import opened Scopes
  import opened Ir
  import Tok = Tokens
  import Source

  /** Emitted code, the temp that holds the result, and the temp counter afterwards. */
  datatype Low = Fatal | Low(code: seq<Instr>, out: nat, temps: nat)

  /** The same for an lvalue and for an argument list. */
  datatype LowLv = NoLv | LowLv(code: seq<Instr>, out: LValue, temps: nat)

  datatype LowArgs = NoArgs | LowArgs(code: seq<Instr>, out: seq<nat>, temps: nat)

  datatype LValue = AtTemp(t: nat) | AtGlobal(name: string)

  /** The counters, the label table (0: label not numbered yet) and the scope chain. */
  datatype Context = Context(temps: nat, labels: nat, table: map<string, nat>, scope: Scope)

  datatype LowStmt = Refused | Lowered(code: seq<Instr>, cx: Context)

  // ----- expressions -----

  function LoadLv(lv: LValue, d: nat): Instr {
    match lv
    case AtTemp(t) => Instr.Load(d, t)
    case AtGlobal(name) => GlobalLoad(d, name)
  }

  function StoreLv(lv: LValue, v: nat): Instr {
    match lv
    case AtTemp(t) => Instr.Store(t, v)
    case AtGlobal(name) => GlobalStore(name, v)
  }

  function AddressLv(lv: LValue, d: nat): Instr {
    match lv
    case AtTemp(t) => Instr.Address(d, t)
    case AtGlobal(name) => GlobalAddr(d, name)
  }

  function LowerVar(sc: Scope, name: string, c: nat): (r: LowLv)
    ensures r.LowLv? ==> r.code == [] && r.temps == c && (r.out.AtTemp? ==> r.out.t != 0)
  {
    match Lookup(sc, name)
    case Local(t) => if t == 0 then NoLv else LowLv([], AtTemp(t), c)
    case Global => LowLv([], AtGlobal(name), c)
    case Missing => NoLv
  }

  function LowerLvalue(e: Expr, sc: Scope, c: nat): (r: LowLv)
    ensures r.LowLv? ==> c <= r.temps && (r.out.AtTemp? ==> r.out.t != 0)
    decreases e, 1
  {
    match e
    case Atom(Identifier, name, _) => LowerVar(sc, name, c)
    case Unary(Mul, x) =>
      (match LowerExpr(x, sc, c)
       case Fatal => NoLv
       case Low(code, t, c1) => LowLv(code, AtTemp(t), c1))
    case _ => NoLv
  }

  function LowerAtom(kind: Tok.Kind, value: string, n: nat, sc: Scope, c: nat): (r: Low)
    ensures r.Low? ==> c < r.out <= r.temps
  {
    match kind
    case IntLit => Low([Const(c + 1, Wrap(n))], c + 1, c + 1)
    case StrLit => Low([Data(c + 1, n)], c + 1, c + 1)
    case Identifier =>
      (match LowerVar(sc, value, c)
       case NoLv => Fatal
       case LowLv(_, lv, _) => Low([LoadLv(lv, c + 1)], c + 1, c + 1))
    case _ => Fatal
  }

  /** An expression's result is a temp that its own code sets. */
  function LowerExpr(e: Expr, sc: Scope, c: nat): (low: Low)
    ensures low.Low? ==> c < low.out <= low.temps
    decreases e, 1
  {
    match e
    case Atom(kind, value, n) => LowerAtom(kind, value, n, sc, c)
    case Unary(op, x) =>
      (match op
       case BitAnd => LowerAddressOf(x, sc, c)
       case Mul => LowerDeref(x, sc, c)
       case Sub => LowerNeg(x, sc, c)
       case Not => LowerNot(x, sc, c)
       case Inc => LowerBump(x, BinOp.Add, sc, c)
       case Dec => LowerBump(x, BinOp.Sub, sc, c)
       case _ => Fatal)
    case Binary(l, op, r) =>
      if op == Tok.Assign then LowerAssign(l, r, sc, c)
      else LowerBinary(l, op, r, sc, c)
    case FunctionCall(name, args) => LowerCall(name, args, sc, c)
  }

  function LowerAddressOf(x: Expr, sc: Scope, c: nat): (low: Low)
    ensures low.Low? ==> c < low.out <= low.temps
    decreases x, 2
  {
    match LowerLvalue(x, sc, c)
    case NoLv => Fatal
    case LowLv(code, lv, c1) => Low(code + [AddressLv(lv, c1 + 1)], c1 + 1, c1 + 1)
  }

  function LowerDeref(x: Expr, sc: Scope, c: nat): (low: Low)
    ensures low.Low? ==> c < low.out <= low.temps
    decreases x, 2
  {
    match LowerExpr(x, sc, c)
    case Fatal => Fatal
    case Low(code, t, c1) => Low(code + [Instr.Load(c1 + 1, t)], c1 + 1, c1 + 1)
  }

  function LowerNeg(x: Expr, sc: Scope, c: nat): (low: Low)
    ensures low.Low? ==> c < low.out <= low.temps
    decreases x, 2
  {
    match LowerExpr(x, sc, c)
    case Fatal => Fatal
    case Low(code, t, c1) => Low(code + [Instr.Neg(c1 + 1, t)], c1 + 1, c1 + 1)
  }

  function LowerNot(x: Expr, sc: Scope, c: nat): (low: Low)
    ensures low.Low? ==> c < low.out <= low.temps
    decreases x, 2
  {
    match LowerExpr(x, sc, c)
    case Fatal => Fatal
    case Low(code, t, c1) => Low(code + [Const(c1 + 1, 0), Bin(BinOp.Eq, c1 + 2, t, c1 + 1)], c1 + 2, c1 + 2)
  }

  function LowerAssign(l: Expr, r: Expr, sc: Scope, c: nat): (low: Low)
    ensures low.Low? ==> c < low.out <= low.temps
    decreases Binary(l, Tok.Assign, r), 0
  {
    match LowerExpr(r, sc, c)
    case Fatal => Fatal
    case Low(code1, v, c1) =>
      match LowerLvalue(l, sc, c1)
      case NoLv => Fatal
      case LowLv(code2, lv, c2) => Low(code1 + code2 + [StoreLv(lv, v)], v, c2)
  }

  function LowerBinary(l: Expr, op: Tok.Kind, r: Expr, sc: Scope, c: nat): (low: Low)
    ensures low.Low? ==> c < low.out <= low.temps
    decreases Binary(l, op, r), 0
  {
    match Source.OperatorOf(op)
    case None => Fatal
    case Some(o) =>
      match LowerExpr(l, sc, c)
      case Fatal => Fatal
      case Low(code1, a, c1) =>
        match LowerExpr(r, sc, c1)
        case Fatal => Fatal
        case Low(code2, b, c2) => Low(code1 + code2 + [Bin(o, c2 + 1, a, b)], c2 + 1, c2 + 1)
  }

  function LowerCall(name: string, args: Exprs, sc: Scope, c: nat): (low: Low)
    ensures low.Low? ==> c < low.out <= low.temps
    decreases args, 2
  {
    match LowerArgs(args, sc, c)
    case NoArgs => Fatal
    case LowArgs(code, ts, c1) => Low(code + [Instr.Call(c1 + 1, name, ts)], c1 + 1, c1 + 1)
  }

  function LowerBump(x: Expr, op: BinOp, sc: Scope, c: nat): (r: Low)
    ensures r.Low? ==> c < r.out <= r.temps
    decreases x, 2
  {
    match LowerLvalue(x, sc, c)
    case NoLv => Fatal
    case LowLv(code, lv, c1) =>
      Low(code + [LoadLv(lv, c1 + 1), Const(c1 + 2, 1), Bin(op, c1 + 3, c1 + 1, c1 + 2),
                  StoreLv(lv, c1 + 3)], c1 + 3, c1 + 3)
  }

  function LowerArgs(args: Exprs, sc: Scope, c: nat): (r: LowArgs)
    decreases args, 1
    ensures r.LowArgs? ==> c <= r.temps && |r.out| == Argc(args)
    ensures r.LowArgs? ==> forall i :: 0 <= i < |r.out| ==> c < r.out[i] <= r.temps
  {
    match args
    case NoExprs => LowArgs([], [], c)
    case MoreExprs(e, next) =>
      match LowerExpr(e, sc, c)
      case Fatal => NoArgs
      case Low(code1, t, c1) =>
        match LowerArgs(next, sc, c1)
        case NoArgs => NoArgs
        case LowArgs(code2, ts, c2) => LowArgs(code1 + code2, [t] + ts, c2)
  }

  // ----- statements -----

  /** The table of a block holds every `auto` directly in it, none with a cell yet. */
  function BlockTable(ss: Stmts): map<string, nat> {
    match ss
    case NoStmts => map[]
    case MoreStmts(s, next) =>
      if s.Auto? then BlockTable(next)[s.name := 0] else BlockTable(next)
  }

  /** The number of a label: given when the label is first met, by a jump or in place. */
  function Numbered(cx: Context, name: string): Context
    requires name in cx.table
  {
    if cx.table[name] != 0 then cx
    else cx.(labels := cx.labels + 1, table := cx.table[name := cx.labels + 1])
  }

  function LowerStmt(s: Stmt, cx: Context): LowStmt
    decreases s, 1
  {
    match s
    case Return(e) =>
      (match LowerExpr(e, cx.scope, cx.temps)
       case Fatal => Refused
       case Low(code, t, c) => Lowered(code + [Instr.Return(t)], cx.(temps := c)))
    case Block(body) => LowerBlock(body, cx)
    case Auto(name, _) =>
      if Lookup(cx.scope, name).Missing? then Refused
      else Lowered([Alloc(cx.temps + 1)],
                   cx.(temps := cx.temps + 1, scope := SetLocal(cx.scope, name, cx.temps + 1)))
    case Extrn(_) => Lowered([], cx)
    case Simple(e) =>
      (match LowerExpr(e, cx.scope, cx.temps)
       case Fatal => Refused
       case Low(code, _, c) => Lowered(code, cx.(temps := c)))
    case If(links) => LowerIf(links, cx)
    case While(cond, body) => LowerWhile(cond, body, cx)
    case Lable(name) =>
      if name !in cx.table then Refused
      else
        var cx1 := Numbered(cx, name);
        Lowered([Label(cx1.table[name])], cx1)
    case Goto(name) =>
      if name !in cx.table then Refused
      else
        var cx1 := Numbered(cx, name);
        Lowered([Jump(cx1.table[name])], cx1)
  }

  function LowerIf(links: Chain, cx: Context): LowStmt
    decreases links, 2
  {
    var end := cx.labels + 1;
    match LowerChain(links, end, cx.(labels := end))
    case Refused => Refused
    case Lowered(code, cx1) => Lowered(code + [Label(end)], cx1)
  }

  function LowerWhile(cond: Expr, body: Stmts, cx: Context): LowStmt
    decreases body, 2
  {
    var n := cx.labels;
    match LowerExpr(cond, cx.scope, cx.temps)
    case Fatal => Refused
    case Low(code1, t, c) =>
      match LowerBlock(body, cx.(temps := c, labels := n + 3))
      case Refused => Refused
      case Lowered(code2, cx1) =>
        Lowered([Label(n + 1)] + code1 + [Branch(t, n + 2, n + 3), Label(n + 2)] + code2
                + [Jump(n + 1), Label(n + 3)], cx1)
  }

  function LowerBlock(body: Stmts, cx: Context): LowStmt
    decreases body, 1
  {
    match LowerStmts(body, cx.(scope := Inner(BlockTable(body), cx.scope)))
    case Refused => Refused
    case Lowered(code, cx1) => Lowered(code, cx1.(scope := cx.scope))
  }

  function LowerStmts(ss: Stmts, cx: Context): LowStmt
    decreases ss, 0
  {
    match ss
    case NoStmts => Lowered([], cx)
    case MoreStmts(s, next) =>
      match LowerStmt(s, cx)
      case Refused => Refused
      case Lowered(code1, cx1) =>
        match LowerStmts(next, cx1)
        case Refused => Refused
        case Lowered(code2, cx2) => Lowered(code1 + code2, cx2)
  }

  function LowerChain(links: Chain, end: nat, cx: Context): LowStmt
    decreases links, 1
  {
    match links
    case NoChain => Lowered([], cx)
    case Else(body) => LowerBlock(body, cx)
    case Link(cond, body, chain) =>
      match LowerLink(cond, body, end, cx)
      case Refused => Refused
      case Lowered(code1, cx1) =>
        match LowerChain(chain, end, cx1)
        case Refused => Refused
        case Lowered(code2, cx2) => Lowered(code1 + code2, cx2)
  }

  /** One `if` or `else if`, without the links that follow. */
  function LowerLink(cond: Expr, body: Stmts, end: nat, cx: Context): LowStmt
    decreases body, 2
  {
    var n := cx.labels;
    match LowerExpr(cond, cx.scope, cx.temps)
    case Fatal => Refused
    case Low(code1, t, c) =>
      match LowerBlock(body, cx.(temps := c, labels := n + 2))
      case Refused => Refused
      case Lowered(code2, cx1) =>
        Lowered(code1 + [Branch(t, n + 1, n + 2), Label(n + 1)] + code2 + [Jump(end), Label(n + 2)], cx1)
  }

  // ----- functions and programs -----

  /** Parameter i arrives in temp i; its temp then holds the address of its cell. */
  function Prologue(n: nat, i: nat): seq<Instr> {
    if i == 0 then []
    else Prologue(n, i - 1)
         + [Alloc(n + i), Instr.Store(n + i, i), Instr.Address(i, n + i)]
  }

  /** A parameter's table entry is its own temp. */
  function ParamTemps(params: seq<string>): map<string, nat> {
    if params == [] then map[]
    else ParamTemps(params[..|params| - 1])[params[|params| - 1] := |params|]
  }

  function LabelTable(names: seq<string>): map<string, nat> {
    map x | x in names :: 0
  }

  function FirstContext(f: Function, globals: set<string>): Context {
    Context(2 * |f.params|, 1, LabelTable(LabelsIn(f.body)),
            Inner(ParamTemps(f.params), Globals(globals)))
  }

  /** An implicit `return 0` unless the code already ends in a return. */
  function Epilogue(code: seq<Instr>, c: nat): seq<Instr> {
    if code != [] && code[|code| - 1].Return? then []
    else [Const(c + 1, 0), Instr.Return(c + 1)]
  }

  function LowerFunction(f: Function, globals: set<string>): Option<Fn> {
    match LowerBlock(f.body, FirstContext(f, globals))
    case Refused => None
    case Lowered(body, cx) =>
      var code := [Label(1)] + Prologue(|f.params|, |f.params|) + body;
      Some(Fn(f.name, |f.params|, code + Epilogue(code, cx.temps)))
  }

  function LowerFunctions(fns: seq<Function>, globals: set<string>): (r: Option<seq<Fn>>)
    ensures r.Some? ==> |r.value| == |fns|
    ensures r.Some? ==>
              forall i :: 0 <= i < |fns| ==> LowerFunction(fns[i], globals) == Some(r.value[i])
  {
    if fns == [] then Some([])
    else
      var n := |fns| - 1;
      match LowerFunctions(fns[..n], globals)
      case None => None
      case Some(gs) =>
        match LowerFunction(fns[n], globals)
        case None => None
        case Some(g) => Some(gs + [g])
  }

  function LowerProgram(p: Program): Option<seq<Fn>> {
    LowerFunctions(p.fns, p.globals.Keys)
  }
}
