/** Which programs are lowered, and which end the process through `ir_fatal`. */
module Acceptance {
  import opened Words
  import opened Ast
  import opened Scopes
  import opened Lowering
  import Operators
  import Source
  import Tok = Tokens

  /** What is declared at a point of the text: the globals, and for each block around the point all the
      names that the block declares and those it has declared so far. */
  datatype Env = Top(names: set<string>) | Inside(all: set<string>, done: set<string>, outer: Env)

  /** The innermost block that declares the name at all has already declared it. */
  predicate Usable(env: Env, name: string) {
    match env
    case Top(names) => name in names
    case Inside(all, done, outer) => if name in all then name in done else Usable(outer, name)
  }

  /** Literals, usable variables, the six prefix operators, the binary operators, assignments to places,
      and calls of anything. */
  predicate GoodExpr(e: Expr, env: Env) {
    match e
    case Atom(kind, name, _) => kind.IntLit? || kind.StrLit? || (kind.Identifier? && Usable(env, name))
    case Unary(op, x) =>
      || ((op.Mul? || op.Sub? || op.Not?) && GoodExpr(x, env))
      || ((op.BitAnd? || op.Inc? || op.Dec?) && GoodPlace(x, env))
    case Binary(l, op, r) =>
      if op.Assign? then GoodExpr(r, env) && GoodPlace(l, env)
      else op in Operators.OPERATORS && GoodExpr(l, env) && GoodExpr(r, env)
    case FunctionCall(_, args) => GoodArgs(args, env)
  }

  predicate GoodPlace(e: Expr, env: Env) {
    match e
    case Atom(kind, name, _) => kind.Identifier? && Usable(env, name)
    case Unary(op, x) => op.Mul? && GoodExpr(x, env)
    case _ => false
  }

  predicate GoodArgs(args: Exprs, env: Env) {
    match args
    case NoExprs => true
    case MoreExprs(e, next) => GoodExpr(e, env) && GoodArgs(next, env)
  }

  /** The names that stand in an `auto` directly among the statements. */
  function AutoNames(ss: Stmts): set<string> {
    match ss
    case NoStmts => {}
    case MoreStmts(s, next) => (if s.Auto? then {s.name} else {}) + AutoNames(next)
  }

  function Declaring(env: Env, s: Stmt): Env {
    if s.Auto? && env.Inside? then env.(done := env.done + {s.name}) else env
  }

  predicate GoodStmt(s: Stmt, env: Env, labels: set<string>)
    decreases s, 1
  {
    match s
    case Return(e) => GoodExpr(e, env)
    case Block(body) => GoodBlock(body, env, labels)
    case Simple(e) => GoodExpr(e, env)
    case If(links) => GoodChain(links, env, labels)
    case While(cond, body) => GoodExpr(cond, env) && GoodBlock(body, env, labels)
    case Goto(name) => name in labels
    case _ => true
  }

  predicate GoodBlock(body: Stmts, env: Env, labels: set<string>)
    decreases body, 1
  {
    GoodStmts(body, Inside(AutoNames(body), {}, env), labels)
  }

  predicate GoodStmts(ss: Stmts, env: Env, labels: set<string>)
    decreases ss, 0
  {
    match ss
    case NoStmts => true
    case MoreStmts(s, next) => GoodStmt(s, env, labels) && GoodStmts(next, Declaring(env, s), labels)
  }

  predicate GoodChain(links: Chain, env: Env, labels: set<string>)
    decreases links, 0
  {
    match links
    case NoChain => true
    case Else(body) => GoodBlock(body, env, labels)
    case Link(cond, body, chain) =>
      GoodExpr(cond, env) && GoodBlock(body, env, labels) && GoodChain(chain, env, labels)
  }

  /** The statements hold the label, at any depth. */
  predicate HasLabel(ss: Stmts, x: string)
    decreases ss, 0
  {
    match ss
    case NoStmts => false
    case MoreStmts(s, next) => IsOrHas(s, x) || HasLabel(next, x)
  }

  predicate IsOrHas(s: Stmt, x: string)
    decreases s, 1
  {
    match s
    case Lable(name) => name == x
    case Block(body) => HasLabel(body, x)
    case If(links) => SomeHas(links, x)
    case While(_, body) => HasLabel(body, x)
    case _ => false
  }

  predicate SomeHas(links: Chain, x: string)
    decreases links, 0
  {
    match links
    case NoChain => false
    case Else(body) => HasLabel(body, x)
    case Link(_, body, chain) => HasLabel(body, x) || SomeHas(chain, x)
  }

  function LabelSet(body: Stmts): set<string> {
    set x | x in LabelsIn(body)
  }

  predicate GoodFunction(f: Function, globals: set<string>) {
    var params := set x | x in f.params;
    GoodBlock(f.body, Inside(params, params, Top(globals)), LabelSet(f.body))
  }

  // ----- labels -----

  /** The labels of a body are those that stand in it. */
  lemma {:induction false} LabelsStand(ss: Stmts, x: string)
    ensures x in LabelsIn(ss) <==> HasLabel(ss, x)
    decreases ss, 0
  {
    if ss.MoreStmts? {
      LabelsOne(ss.head, x);
      LabelsStand(ss.next, x);
    }
  }

  lemma {:induction false} LabelsOne(s: Stmt, x: string)
    ensures x in Labels(s) <==> IsOrHas(s, x)
    decreases s, 1
  {
    match s
    case Block(body) => LabelsStand(body, x);
    case If(links) => LabelsChain(links, x);
    case While(_, body) => LabelsStand(body, x);
    case _ =>
  }

  lemma {:induction false} LabelsChain(links: Chain, x: string)
    ensures x in LabelsOf(links) <==> SomeHas(links, x)
    decreases links, 0
  {
    match links
    case NoChain =>
    case Else(body) => LabelsStand(body, x);
    case Link(_, body, chain) =>
      LabelsStand(body, x);
      LabelsChain(chain, x);
  }

  // ----- expressions -----

  /** The lowering's tables hold the names of the blocks, and a number for those declared so far. */
  ghost predicate Knows(sc: Scope, env: Env) {
    match (sc, env)
    case (Globals(a), Top(b)) => a == b
    case (Inner(tab, parent), Inside(all, done, outer)) =>
      && tab.Keys == all && (forall x :: x in tab ==> (x in done <==> tab[x] != 0)) && Knows(parent, outer)
    case _ => false
  }

  lemma {:induction false} VariableOk(sc: Scope, env: Env, name: string, c: nat)
    requires Knows(sc, env)
    ensures LowerVar(sc, name, c).LowLv? <==> Usable(env, name)
    decreases sc
  {
    if sc.Inner? && name !in sc.symtab {
      VariableOk(sc.parent, env.outer, name, c);
    }
  }

  /** An expression is lowered exactly when it is good. */
  lemma {:induction false} ExprOk(e: Expr, sc: Scope, env: Env, c: nat)
    requires Knows(sc, env)
    ensures LowerExpr(e, sc, c).Low? <==> GoodExpr(e, env)
    decreases e, 1
  {
    hide LowerVar, Usable, LowerLvalue, GoodPlace, LowerArgs, GoodArgs, Knows;
    match e
    case Atom(kind, name, _) => VariableOk(sc, env, name, c);
    case Unary(op, x) =>
      ExprOk(x, sc, env, c);
      PlaceOk(x, sc, env, c);
    case Binary(l, op, r) =>
      if op.Assign? {
        ExprOk(r, sc, env, c);
        if LowerExpr(r, sc, c).Low? {
          PlaceOk(l, sc, env, LowerExpr(r, sc, c).temps);
        }
        AssignUnfolds(l, r, sc, c);
      } else {
        ExprOk(l, sc, env, c);
        if LowerExpr(l, sc, c).Low? {
          ExprOk(r, sc, env, LowerExpr(l, sc, c).temps);
        }
        BinaryUnfolds(l, op, r, sc, c);
      }
    case FunctionCall(_, args) =>
      ArgsOk(args, sc, env, c);
  }

  lemma AssignUnfolds(l: Expr, r: Expr, sc: Scope, c: nat)
    ensures LowerExpr(Binary(l, Tok.Assign, r), sc, c).Low?
            <==> LowerExpr(r, sc, c).Low? && LowerLvalue(l, sc, LowerExpr(r, sc, c).temps).LowLv?
  {
    hide LowerLvalue;
    assert LowerExpr(Binary(l, Tok.Assign, r), sc, c) == LowerAssign(l, r, sc, c);
  }

  lemma BinaryUnfolds(l: Expr, op: Tok.Kind, r: Expr, sc: Scope, c: nat)
    requires !op.Assign?
    ensures LowerExpr(Binary(l, op, r), sc, c).Low?
            <==> op in Operators.OPERATORS && LowerExpr(l, sc, c).Low?
                 && LowerExpr(r, sc, LowerExpr(l, sc, c).temps).Low?
  {
    assert LowerExpr(Binary(l, op, r), sc, c) == LowerBinary(l, op, r, sc, c);
    OperatorOk(op);
  }

  lemma OperatorOk(op: Tok.Kind)
    ensures Source.OperatorOf(op).Some? <==> op in Operators.OPERATORS
  {
  }

  lemma {:induction false} PlaceOk(e: Expr, sc: Scope, env: Env, c: nat)
    requires Knows(sc, env)
    ensures LowerLvalue(e, sc, c).LowLv? <==> GoodPlace(e, env)
    decreases e, 0
  {
    hide LowerVar, Usable, LowerExpr, GoodExpr, Knows;
    match e
    case Atom(_, name, _) => VariableOk(sc, env, name, c);
    case Unary(op, x) =>
      if op.Mul? {
        ExprOk(x, sc, env, c);
      }
    case _ =>
  }

  lemma {:induction false} ArgsOk(args: Exprs, sc: Scope, env: Env, c: nat)
    requires Knows(sc, env)
    ensures LowerArgs(args, sc, c).LowArgs? <==> GoodArgs(args, env)
    decreases args, 0
  {
    hide LowerExpr, GoodExpr, Knows;
    if args.MoreExprs? {
      ExprOk(args.head, sc, env, c);
      if LowerExpr(args.head, sc, c).Low? {
        ArgsOk(args.next, sc, env, LowerExpr(args.head, sc, c).temps);
      }
    }
  }

  // ----- statements -----

  ghost predicate KnowsAll(cx: Context, env: Env, labels: set<string>) {
    Knows(cx.scope, env) && cx.table.Keys == labels
  }

  /** What a statement needs of the point it stands at: a declaration stands in a block that has the name. */
  predicate Placeable(s: Stmt, env: Env, labels: set<string>) {
    (s.Auto? ==> env.Inside? && s.name in env.all) && forall x :: x in Labels(s) ==> x in labels
  }

  /** A statement is lowered exactly when it is good, and then the tables know what it declares. */
  lemma {:induction false} StmtOk(s: Stmt, cx: Context, env: Env, labels: set<string>)
    requires KnowsAll(cx, env, labels) && Placeable(s, env, labels)
    ensures LowerStmt(s, cx).Lowered? <==> GoodStmt(s, env, labels)
    ensures LowerStmt(s, cx).Lowered? ==> KnowsAll(LowerStmt(s, cx).cx, Declaring(env, s), labels)
    decreases s, 1
  {
    hide LowerExpr, GoodExpr, LowerBlock, GoodBlock, LowerIf, GoodChain, LowerWhile, Knows, Lookup, SetLocal;
    match s
    case Return(e) => ExprOk(e, cx.scope, env, cx.temps);
    case Simple(e) => ExprOk(e, cx.scope, env, cx.temps);
    case Block(body) => BlockOk(body, cx, env, labels);
    case Auto(name, _) => AutoOk(name, cx.temps + 1, cx.scope, env);
    case If(links) => ChainOk(links, cx.labels + 1, cx.(labels := cx.labels + 1), env, labels); IfUnfolds(links, cx);
    case While(cond, body) =>
      ExprOk(cond, cx.scope, env, cx.temps);
      WhileUnfolds(cond, body, cx);
      if LowerExpr(cond, cx.scope, cx.temps).Low? {
        BlockOk(body, WhileCx(cond, cx), env, labels);
      }
    case Lable(name) => assert name in Labels(s);
    case _ =>
  }

  lemma AutoOk(name: string, n: nat, sc: Scope, env: Env)
    requires Knows(sc, env) && env.Inside? && name in env.all && n != 0
    ensures !Lookup(sc, name).Missing?
    ensures Knows(SetLocal(sc, name, n), env.(done := env.done + {name}))
  {
  }

  lemma IfUnfolds(links: Chain, cx: Context)
    ensures
      var r := LowerChain(links, cx.labels + 1, cx.(labels := cx.labels + 1));
      LowerIf(links, cx).Lowered? == r.Lowered? && (r.Lowered? ==> LowerIf(links, cx).cx == r.cx)
  {
    hide LowerChain;
  }

  /** The context in which the body of a loop is lowered. */
  function WhileCx(cond: Expr, cx: Context): Context
    requires LowerExpr(cond, cx.scope, cx.temps).Low?
  {
    cx.(temps := LowerExpr(cond, cx.scope, cx.temps).temps, labels := cx.labels + 3)
  }

  lemma WhileUnfolds(cond: Expr, body: Stmts, cx: Context)
    ensures
      var q := LowerExpr(cond, cx.scope, cx.temps);
      && (q.Fatal? ==> LowerWhile(cond, body, cx).Refused?)
      && (q.Low? ==>
            var r := LowerBlock(body, WhileCx(cond, cx));
            && LowerWhile(cond, body, cx).Lowered? == r.Lowered?
            && (r.Lowered? ==> LowerWhile(cond, body, cx).cx == r.cx))
  {
    hide LowerBlock, LowerExpr;
  }

  lemma {:induction false} BlockTableKeys(ss: Stmts)
    ensures BlockTable(ss).Keys == AutoNames(ss) && forall x :: x in BlockTable(ss) ==> BlockTable(ss)[x] == 0
    decreases ss
  {
    if ss.MoreStmts? {
      BlockTableKeys(ss.next);
    }
  }

  lemma {:induction false} BlockOk(body: Stmts, cx: Context, env: Env, labels: set<string>)
    requires KnowsAll(cx, env, labels) && forall x :: x in LabelsIn(body) ==> x in labels
    ensures LowerBlock(body, cx).Lowered? <==> GoodBlock(body, env, labels)
    ensures LowerBlock(body, cx).Lowered? ==> KnowsAll(LowerBlock(body, cx).cx, env, labels)
    decreases body, 3
  {
    hide LowerStmts, GoodStmts, BlockTable, AutoNames;
    var inner := cx.(scope := Inner(BlockTable(body), cx.scope));
    BlockTableKeys(body);
    StmtsOk(body, inner, Inside(AutoNames(body), {}, env), labels);
  }

  lemma {:induction false} StmtsOk(ss: Stmts, cx: Context, env: Env, labels: set<string>)
    requires KnowsAll(cx, env, labels) && env.Inside? && AutoNames(ss) <= env.all
    requires forall x :: x in LabelsIn(ss) ==> x in labels
    ensures LowerStmts(ss, cx).Lowered? <==> GoodStmts(ss, env, labels)
    ensures LowerStmts(ss, cx).Lowered? ==> LowerStmts(ss, cx).cx.table.Keys == labels
    decreases ss, 2
  {
    hide LowerStmt, GoodStmt, Knows, Labels;
    if ss.MoreStmts? {
      StmtOk(ss.head, cx, env, labels);
      if LowerStmt(ss.head, cx).Lowered? {
        StmtsOk(ss.next, LowerStmt(ss.head, cx).cx, Declaring(env, ss.head), labels);
      }
    }
  }

  lemma {:induction false} ChainOk(links: Chain, end: nat, cx: Context, env: Env, labels: set<string>)
    requires KnowsAll(cx, env, labels) && forall x :: x in LabelsOf(links) ==> x in labels
    ensures LowerChain(links, end, cx).Lowered? <==> GoodChain(links, env, labels)
    ensures LowerChain(links, end, cx).Lowered? ==> KnowsAll(LowerChain(links, end, cx).cx, env, labels)
    decreases links, 2
  {
    hide LowerBlock, GoodBlock, Knows, LowerExpr, GoodExpr, LabelsIn;
    match links
    case NoChain =>
    case Else(body) => BlockOk(body, cx, env, labels);
    case Link(cond, body, chain) =>
      ExprOk(cond, cx.scope, env, cx.temps);
      LinkUnfolds(cond, body, end, cx);
      if LowerExpr(cond, cx.scope, cx.temps).Low? {
        BlockOk(body, LinkCx(cond, cx), env, labels);
        if LowerLink(cond, body, end, cx).Lowered? {
          ChainOk(chain, end, LowerLink(cond, body, end, cx).cx, env, labels);
        }
      }
  }

  function LinkCx(cond: Expr, cx: Context): Context
    requires LowerExpr(cond, cx.scope, cx.temps).Low?
  {
    cx.(temps := LowerExpr(cond, cx.scope, cx.temps).temps, labels := cx.labels + 2)
  }

  lemma LinkUnfolds(cond: Expr, body: Stmts, end: nat, cx: Context)
    ensures
      var q := LowerExpr(cond, cx.scope, cx.temps);
      && (q.Fatal? ==> LowerLink(cond, body, end, cx).Refused?)
      && (q.Low? ==>
            var r := LowerBlock(body, LinkCx(cond, cx));
            && LowerLink(cond, body, end, cx).Lowered? == r.Lowered?
            && (r.Lowered? ==> LowerLink(cond, body, end, cx).cx == r.cx))
  {
    hide LowerBlock, LowerExpr;
  }

  // ----- functions and programs -----

  lemma {:induction false} ParamKeys(params: seq<string>)
    ensures ParamTemps(params).Keys == (set x | x in params)
    ensures forall x :: x in ParamTemps(params) ==> ParamTemps(params)[x] != 0
    decreases |params|
  {
    if params != [] {
      var n := |params| - 1;
      ParamKeys(params[..n]);
      assert params == params[..n] + [params[n]];
    }
  }

  lemma FunctionOk(f: Function, globals: set<string>)
    ensures LowerFunction(f, globals).Some? <==> GoodFunction(f, globals)
  {
    hide LowerBlock, GoodBlock, ParamTemps, Prologue, Epilogue;
    var params := set x | x in f.params;
    ParamKeys(f.params);
    assert LabelTable(LabelsIn(f.body)).Keys == LabelSet(f.body);
    assert Knows(Globals(globals), Top(globals));
    assert Knows(Inner(ParamTemps(f.params), Globals(globals)), Inside(params, params, Top(globals)));
    BlockOk(f.body, FirstContext(f, globals), Inside(params, params, Top(globals)), LabelSet(f.body));
  }

  /** A program is lowered exactly when all its functions are good: names usable where they are used,
      places where places stand, known operators, and labels that stand in the function. */
  lemma {:induction false} ProgramOk(fns: seq<Function>, globals: set<string>)
    ensures LowerFunctions(fns, globals).Some? <==> forall f :: f in fns ==> GoodFunction(f, globals)
    decreases |fns|
  {
    hide LowerFunction, GoodFunction;
    if fns != [] {
      var n := |fns| - 1;
      ProgramOk(fns[..n], globals);
      FunctionOk(fns[n], globals);
      assert fns == fns[..n] + [fns[n]];
    }
  }

  lemma LowersExactly(p: Program)
    ensures LowerProgram(p).Some? <==> forall f :: f in p.fns ==> GoodFunction(f, p.globals.Keys)
  {
    hide LowerFunctions, GoodFunction;
    ProgramOk(p.fns, p.globals.Keys);
  }
}
