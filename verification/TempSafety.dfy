/** Definite assignment over runs. Whatever a program jumps over, the only temp that can be used
    before it is set is the address of an `auto`; and in a function without `goto` there is none. */
module TempSafety {
  import opened Words
  import opened Ast
  import opened Scopes
  import opened Ir
  import opened Lowering
  import opened CodeShape
  import opened CodeLabels
  import opened Codegen
  import opened Numbering
  import opened Placement
  import opened Shelter
  import opened SetBeforeUse
  import opened DefiniteAssignment
  import CF = ControlFlow
  import FS = FunctionSimulation
  import Layouts = FrameLayout

  // ----- where jumps go -----

  /** Every jump in [p, q) stays there or goes to e. */
  ghost predicate Stays(C: seq<Instr>, p: int, q: int, e: int) {
    forall j, k :: p <= j < q && 0 <= j < |C| && 0 <= k < |C| && C[k].Label? && Aims(C[j], C[k].id) ==>
                     p <= k < q || k == e
  }

  /** No jump from outside leads into [p, q). */
  ghost predicate Shut(C: seq<Instr>, p: int, q: int) {
    forall j, k :: 0 <= j < |C| && 0 <= k < |C| && C[k].Label? && Aims(C[j], C[k].id) ==> p <= k < q ==> p <= j < q
  }

  /** A context without labels: what is closed there jumps to labels of its own. */
  function Blank(): Context {
    Context(0, 0, map[], Globals({}))
  }

  lemma BlankGrows()
    ensures Grows(Blank(), Blank()) && Sound(Blank())
    ensures forall id :: !Used(id, Blank())
  {
  }

  lemma PlainClosed(code: seq<Instr>, exits: set<nat>)
    requires forall i :: 0 <= i < |code| ==> !code[i].Jump? && !code[i].Branch?
    ensures Closed(code, Blank(), exits)
  {
  }

  lemma ExprClosed(e: Expr, sc: Scope, c: nat, t: nat)
    requires LowerExpr(e, sc, c).Low?
    ensures Closed(LowerExpr(e, sc, c).code, Blank(), {})
    ensures Closed(LowerExpr(e, sc, c).code + [Instr.Return(t)], Blank(), {})
  {
    hide LowerExpr, Closed;
    ExprPlain(e, sc, c);
    PlainClosed(LowerExpr(e, sc, c).code, {});
    PlainClosed(LowerExpr(e, sc, c).code + [Instr.Return(t)], {});
  }

  lemma {:induction false} StmtClosed(s: Stmt, cx: Context)
    requires LowerStmt(s, cx).Lowered? && NoGoto(s)
    ensures Closed(LowerStmt(s, cx).code, Blank(), {})
    decreases s, 1
  {
    hide LowerExpr, LowerBlock, LowerWhile, LowerIf, Closed, Lookup, SetLocal, Numbered, NoGotoIn, NoGotoOf;
    match s
    case Return(e) => ExprClosed(e, cx.scope, cx.temps, LowerExpr(e, cx.scope, cx.temps).out);
    case Block(body) => BlockClosed(body, cx);
    case Simple(e) => ExprClosed(e, cx.scope, cx.temps, 0);
    case If(links) => IfClosed(links, cx);
    case While(cond, body) => WhileClosed(cond, body, cx);
    case Goto(_) =>
    case _ => PlainClosed(LowerStmt(s, cx).code, {});
  }

  lemma {:induction false} IfClosed(links: Chain, cx: Context)
    requires LowerIf(links, cx).Lowered? && NoGotoOf(links)
    ensures Closed(LowerIf(links, cx).code, Blank(), {})
    decreases links, 2
  {
    hide LowerChain, Closed, NoGotoOf;
    var end := cx.labels + 1;
    ChainClosed(links, end, cx.(labels := end));
    ClosedEnd(LowerChain(links, end, cx.(labels := end)).code, [Label(end)], Blank(), end);
  }

  lemma {:induction false} WhileClosed(cond: Expr, body: Stmts, cx: Context)
    requires LowerWhile(cond, body, cx).Lowered? && NoGotoIn(body)
    ensures Closed(LowerWhile(cond, body, cx).code, Blank(), {})
    decreases body, 2
  {
    hide LowerExpr, LowerBlock, Closed, Plain, Unique, NoGotoIn;
    var n := cx.labels;
    var low := LowerExpr(cond, cx.scope, cx.temps);
    var cxb := cx.(temps := low.temps, labels := n + 3);
    BlockClosed(body, cxb);
    ExprPlain(cond, cx.scope, cx.temps);
    var d := [Jump(n + 1), Label(n + 3)];
    LabelsAround([Label(n + 1)], low.code, Branch(low.out, n + 2, n + 3), n + 2, d, n + 1, n + 3);
    ClosedAround([Label(n + 1)] + low.code + [Branch(low.out, n + 2, n + 3), Label(n + 2)],
                 LowerBlock(body, cxb).code, d, Blank(), {});
  }

  lemma {:induction false} LinkClosed(cond: Expr, body: Stmts, end: nat, cx: Context)
    requires LowerLink(cond, body, end, cx).Lowered? && NoGotoIn(body)
    ensures Closed(LowerLink(cond, body, end, cx).code, Blank(), {end})
    decreases body, 2
  {
    hide LowerExpr, LowerBlock, LowerLink, Closed, Plain, Unique, NoGotoIn;
    LinkCode(cond, body, end, cx);
    var n := cx.labels;
    var low := LowerExpr(cond, cx.scope, cx.temps);
    var cxb := cx.(temps := low.temps, labels := n + 2);
    BlockClosed(body, cxb);
    ExprPlain(cond, cx.scope, cx.temps);
    assert [] + low.code == low.code;
    var d := [Jump(end), Label(n + 2)];
    LabelsAround([], low.code, Branch(low.out, n + 1, n + 2), n + 1, d, end, n + 2);
    ClosedAround(low.code + [Branch(low.out, n + 1, n + 2), Label(n + 1)], LowerBlock(body, cxb).code, d, Blank(),
                 {end});
  }

  lemma {:induction false} BlockClosed(body: Stmts, cx: Context)
    requires LowerBlock(body, cx).Lowered? && NoGotoIn(body)
    ensures Closed(LowerBlock(body, cx).code, Blank(), {})
    decreases body, 1
  {
    hide LowerStmts, Closed, NoGotoIn;
    StmtsClosed(body, cx.(scope := Inner(BlockTable(body), cx.scope)));
  }

  lemma {:induction false} StmtsClosed(ss: Stmts, cx: Context)
    requires LowerStmts(ss, cx).Lowered? && NoGotoIn(ss)
    ensures Closed(LowerStmts(ss, cx).code, Blank(), {})
    decreases ss, 0
  {
    hide LowerStmt, Closed, NoGoto, Grows;
    match ss
    case NoStmts => PlainClosed([], {});
    case MoreStmts(s, next) =>
      StmtClosed(s, cx);
      StmtsClosed(next, LowerStmt(s, cx).cx);
      BlankGrows();
      ClosedSum(LowerStmt(s, cx).code, LowerStmts(next, LowerStmt(s, cx).cx).code, Blank(), Blank(), {});
  }

  lemma {:induction false} ChainClosed(links: Chain, end: nat, cx: Context)
    requires LowerChain(links, end, cx).Lowered? && NoGotoOf(links)
    ensures Closed(LowerChain(links, end, cx).code, Blank(), {end})
    decreases links, 1
  {
    hide LowerLink, LowerBlock, Closed, NoGotoIn, Grows;
    match links
    case NoChain => PlainClosed([], {end});
    case Else(body) =>
      BlockClosed(body, cx);
      ClosedMore(LowerBlock(body, cx).code, end);
    case Link(cond, body, chain) =>
      var l1 := LowerLink(cond, body, end, cx);
      LinkClosed(cond, body, end, cx);
      ChainClosed(chain, end, l1.cx);
      BlankGrows();
      ClosedSum(l1.code, LowerChain(chain, end, l1.cx).code, Blank(), Blank(), {end});
  }

  lemma ClosedMore(code: seq<Instr>, end: nat)
    requires Closed(code, Blank(), {})
    ensures Closed(code, Blank(), {end})
  {
    hide Used;
  }

  /** Code that jumps to its own labels only, or to one at e, where labels are unique. */
  lemma ClosedStays(C: seq<Instr>, p: nat, code: seq<Instr>, exits: set<nat>, e: int)
    requires Unique(C) && At(C, p, code) && Closed(code, Blank(), exits)
    requires forall id :: id in exits ==> 0 <= e < |C| && C[e] == Label(id)
    ensures Stays(C, p, p + |code|, e)
  {
    hide Closed;
    BlankGrows();
    forall j, k | p <= j < p + |code| && 0 <= j < |C| && 0 <= k < |C| && C[k].Label? && Aims(C[j], C[k].id)
      ensures p <= k < p + |code| || k == e
    {
      AtIndex(C, p, code, j - p);
      ClosedTarget(code, exits, j - p, C[k].id);
      if Label(C[k].id) in code {
        var i :| 0 <= i < |code| && code[i] == Label(C[k].id);
        AtIndex(C, p, code, i);
        assert C[p + i] == C[k];
      }
    }
  }

  lemma ClosedTarget(code: seq<Instr>, exits: set<nat>, j: nat, id: nat)
    requires Closed(code, Blank(), exits) && j < |code| && Aims(code[j], id)
    ensures Label(id) in code || id in exits
  {
    BlankGrows();
  }

  /** Two pieces that keep to themselves inside a piece that is shut. */
  lemma ShutSplit(C: seq<Instr>, p: int, m: int, q: int, e: int)
    requires Shut(C, p, q) && Stays(C, p, m, e) && Stays(C, m, q, e) && p <= m <= q && (e < p || e >= q)
    ensures Shut(C, p, m) && Shut(C, m, q)
  {
    hide Aims;
  }

  // ----- what is set where -----

  /** Temp t is set everywhere in [p, q). */
  ghost predicate Available(C: seq<Instr>, p: int, q: int, t: nat) {
    exists i, e :: 0 <= i < p && i < |C| && q <= e && Sheltered(C, i, e) && Sets(C[i]) && Dest(C[i]) == t
  }

  /** The variables in scope have their addresses in [p, q); parameters are the temps up to n. */
  ghost predicate Covers(C: seq<Instr>, p: int, q: int, sc: Scope, n: nat) {
    forall x: string :: Lookup(sc, x).Local? && Lookup(sc, x).n != 0 ==>
                          Lookup(sc, x).n <= n || Available(C, p, q, Lookup(sc, x).n)
  }

  /** Every temp used in [p, q) is set by then. */
  ghost predicate AllHeld(C: seq<Instr>, p: int, q: int, n: nat) {
    forall j, t :: p <= j < q && 0 <= j < |C| && t in Uses(C[j]) ==> 1 <= t <= n || Held(C, j, t)
  }

  lemma CoversLess(C: seq<Instr>, p: int, q: int, p1: int, q1: int, sc: Scope, n: nat)
    requires Covers(C, p, q, sc, n) && p <= p1 && q1 <= q
    ensures Covers(C, p1, q1, sc, n)
  {
    hide Lookup;
    forall t | Available(C, p, q, t)
      ensures Available(C, p1, q1, t)
    {
      var i, e :| 0 <= i < p && i < |C| && q <= e && Sheltered(C, i, e) && Sets(C[i]) && Dest(C[i]) == t;
      assert 0 <= i < p1 && i < |C| && q1 <= e && Sheltered(C, i, e) && Sets(C[i]) && Dest(C[i]) == t;
    }
  }

  lemma HeldJoin(C: seq<Instr>, p: int, m: int, q: int, n: nat)
    requires AllHeld(C, p, m, n) && AllHeld(C, m, q, n)
    ensures AllHeld(C, p, q, n)
  {
    hide Held, Uses;
  }

  lemma UselessHeld(C: seq<Instr>, p: int, q: int, n: nat)
    requires forall j :: p <= j < q && 0 <= j < |C| ==> Uses(C[j]) == []
    ensures AllHeld(C, p, q, n)
  {
    hide Held, Uses;
  }

  lemma ServedHeld(C: seq<Instr>, j: int, t: nat)
    requires Served(C, j, t)
    ensures Held(C, j, t)
  {
    hide Sets, Dest;
    var i :| 0 <= i < j < |C| && Sets(C[i]) && Dest(C[i]) == t && LabelFree(C, i, j);
    assert Sheltered(C, i, j + 1);
    assert Region(C, i, j, j + 1);
  }

  lemma AvailableHeld(C: seq<Instr>, p: int, q: int, j: int, t: nat)
    requires Available(C, p, q, t) && p <= j < q
    ensures Held(C, j, t)
  {
    hide Sets, Dest, Sheltered;
    var i, e :| 0 <= i < p && i < |C| && q <= e && Sheltered(C, i, e) && Sets(C[i]) && Dest(C[i]) == t;
    assert Region(C, i, j, e);
  }

  lemma SuppliedHeld(C: seq<Instr>, p: nat, code: seq<Instr>, A: set<nat>, n: nat)
    requires At(C, p, code) && Supplied(code, A, n)
    requires forall t :: t in A ==> 1 <= t <= n || Available(C, p, p + |code|, t)
    ensures AllHeld(C, p, p + |code|, n)
  {
    hide Uses, Served, Held, Available, Through;
    forall j, t | p <= j < p + |code| && 0 <= j < |C| && t in Uses(C[j])
      ensures 1 <= t <= n || Held(C, j, t)
    {
      AtIndex(C, p, code, j - p);
      if Served(code, j - p, t) {
        ServedAt(C, p, code, j - p, t);
        ServedHeld(C, j, t);
      } else if t in A && !(1 <= t <= n) {
        AvailableHeld(C, p, p + |code|, j, t);
      }
    }
  }

  /** An expression's code, alone or with the instruction that uses its value. */
  lemma ExprHeld(C: seq<Instr>, p: nat, e: Expr, sc: Scope, c: nat, x: Instr, tail: seq<Instr>, n: nat)
    requires Under(sc, c) && LowerExpr(e, sc, c).Low? && (tail == [] || tail == [x])
    requires !x.Label? && Uses(x) == [LowerExpr(e, sc, c).out]
    requires At(C, p, LowerExpr(e, sc, c).code + tail)
    requires Covers(C, p, p + |LowerExpr(e, sc, c).code| + |tail|, sc, n)
    ensures AllHeld(C, p, p + |LowerExpr(e, sc, c).code| + |tail|, n)
  {
    hide LowerExpr, Uses, AllHeld, Available, Supplied, Lookup, At, Fed, Plain;
    var code := LowerExpr(e, sc, c).code;
    var q := p + |code| + |tail|;
    ghost var A := set t: nat | 1 <= t <= c && (t <= n || Available(C, p, q, t));
    assert Among(sc, A) by { CoversAmong(C, p, q, sc, c, n, A); }
    ExprSupplied(e, sc, c, x, A, n);
    assert code + [] == code;
    SuppliedHeld(C, p, code + tail, A, n);
  }

  lemma CoversAmong(C: seq<Instr>, p: int, q: int, sc: Scope, c: nat, n: nat, A: set<nat>)
    requires Covers(C, p, q, sc, n) && Under(sc, c)
    requires forall t: nat :: 1 <= t <= c && (t <= n || Available(C, p, q, t)) ==> t in A
    ensures Among(sc, A)
  {
    hide Lookup, Available;
  }

  // ----- statements without goto -----

  lemma {:induction false} StmtHeld(C: seq<Instr>, p: nat, s: Stmt, cx: Context, n: nat)
    requires LowerStmt(s, cx).Lowered? && NoGoto(s) && Unique(C) && At(C, p, LowerStmt(s, cx).code)
    requires Under(cx.scope, cx.temps) && Shut(C, p, p + |LowerStmt(s, cx).code|)
    requires Covers(C, p, p + |LowerStmt(s, cx).code|, cx.scope, n)
    ensures AllHeld(C, p, p + |LowerStmt(s, cx).code|, n)
    decreases s, 1
  {
    hide LowerExpr, LowerBlock, LowerWhile, LowerIf, Lookup, SetLocal, Numbered, NoGotoIn, NoGotoOf, Unique, Under,
      Shut,
      Covers, AllHeld, At;
    match s
    case Return(e) =>
      var low := LowerExpr(e, cx.scope, cx.temps);
      ExprHeld(C, p, e, cx.scope, cx.temps, Instr.Return(low.out), [Instr.Return(low.out)], n);
    case Block(body) => BlockHeld(C, p, body, cx, n);
    case Simple(e) =>
      var low := LowerExpr(e, cx.scope, cx.temps);
      assert low.code + [] == low.code;
      ExprHeld(C, p, e, cx.scope, cx.temps, Instr.Return(low.out), [], n);
    case If(links) => IfHeld(C, p, links, cx, n);
    case While(cond, body) => WhileHeld(C, p, cond, body, cx, n);
    case Goto(_) =>
    case _ =>
      Useless(LowerStmt(s, cx).code, {}, n);
      SuppliedHeld(C, p, LowerStmt(s, cx).code, {}, n);
  }

  lemma {:induction false} BlockHeld(C: seq<Instr>, p: nat, body: Stmts, cx: Context, n: nat)
    requires LowerBlock(body, cx).Lowered? && NoGotoIn(body) && Unique(C) && At(C, p, LowerBlock(body, cx).code)
    requires Under(cx.scope, cx.temps) && Shut(C, p, p + |LowerBlock(body, cx).code|)
    requires Covers(C, p, p + |LowerBlock(body, cx).code|, cx.scope, n)
    ensures AllHeld(C, p, p + |LowerBlock(body, cx).code|, n)
    decreases body, 1
  {
    hide LowerStmts, BlockTable, NoGotoIn, Unique, Under, Shut, Covers, AllHeld, At;
    TableUnder(body, cx.scope, cx.temps);
    TableCovers(C, p, p + |LowerBlock(body, cx).code|, body, cx.scope, n);
    StmtsHeld(C, p, body, cx.(scope := Inner(BlockTable(body), cx.scope)), n);
  }

  lemma TableCovers(C: seq<Instr>, p: int, q: int, body: Stmts, sc: Scope, n: nat)
    requires Covers(C, p, q, sc, n)
    ensures Covers(C, p, q, Inner(BlockTable(body), sc), n)
  {
    hide Available;
    forall x: string | Lookup(Inner(BlockTable(body), sc), x).Local? && Lookup(Inner(BlockTable(body), sc), x).n != 0
      ensures Lookup(Inner(BlockTable(body), sc), x) == Lookup(sc, x)
    {
      TableZero(body, x);
    }
  }

  lemma BlockScope(body: Stmts, cx: Context)
    requires LowerBlock(body, cx).Lowered?
    ensures LowerBlock(body, cx).cx.scope == cx.scope
  {
    hide LowerStmts, BlockTable;
  }

  lemma ScopeSame(s: Stmt, cx: Context)
    requires LowerStmt(s, cx).Lowered? && !s.Auto?
    ensures LowerStmt(s, cx).cx.scope == cx.scope
  {
    hide LowerExpr, LowerBlock, LowerChain;
    match s
    case Block(body) => BlockScope(body, cx);
    case If(links) => ScopeSameChain(links, cx.labels + 1, cx.(labels := cx.labels + 1));
    case While(cond, body) =>
      BlockScope(body, cx.(temps := LowerExpr(cond, cx.scope, cx.temps).temps, labels := cx.labels + 3));
    case _ =>
  }

  lemma {:induction false} ScopeSameChain(links: Chain, end: nat, cx: Context)
    requires LowerChain(links, end, cx).Lowered?
    ensures LowerChain(links, end, cx).cx.scope == cx.scope
    decreases links
  {
    hide LowerBlock, LowerLink;
    match links
    case NoChain =>
    case Else(body) => BlockScope(body, cx);
    case Link(cond, body, chain) =>
      LinkScope(cond, body, end, cx);
      ScopeSameChain(chain, end, LowerLink(cond, body, end, cx).cx);
  }

  /** After an `auto`, its address is there to the end of the block. */
  lemma AfterAuto(C: seq<Instr>, p: nat, q: nat, name: string, cx: Context, n: nat)
    requires p < q <= |C| && C[p] == Alloc(cx.temps + 1) && Shut(C, p, q) && Stays(C, p + 1, q, -1)
    requires Covers(C, p, q, cx.scope, n)
    ensures Covers(C, p + 1, q, SetLocal(cx.scope, name, cx.temps + 1), n)
  {
    hide Lookup, SetLocal, Available;
    var t, sc := cx.temps + 1, cx.scope;
    assert Available(C, p + 1, q, t) by { Sheltering(C, p, q, t); }
    CoversLess(C, p, q, p + 1, q, sc, n);
    forall x: string | Lookup(SetLocal(sc, name, t), x).Local? && Lookup(SetLocal(sc, name, t), x).n != 0
      ensures Lookup(SetLocal(sc, name, t), x).n <= n || Available(C, p + 1, q, Lookup(SetLocal(sc, name, t), x).n)
    {
      SetLookup(sc, name, t, x);
    }
  }

  lemma Sheltering(C: seq<Instr>, p: nat, q: nat, t: nat)
    requires p < q <= |C| && C[p] == Alloc(t) && Shut(C, p, q)
    ensures Available(C, p + 1, q, t)
  {
    assert Sheltered(C, p, q);
  }

  lemma {:induction false} StmtsHeld(C: seq<Instr>, p: nat, ss: Stmts, cx: Context, n: nat)
    requires LowerStmts(ss, cx).Lowered? && NoGotoIn(ss) && Unique(C) && At(C, p, LowerStmts(ss, cx).code)
    requires Under(cx.scope, cx.temps) && Shut(C, p, p + |LowerStmts(ss, cx).code|)
    requires Covers(C, p, p + |LowerStmts(ss, cx).code|, cx.scope, n)
    ensures AllHeld(C, p, p + |LowerStmts(ss, cx).code|, n)
    decreases ss, 0
  {
    match ss
    case NoStmts => UselessHeld(C, p, p, n);
    case MoreStmts(s, next) =>
      hide LowerStmt, NoGoto, Unique, Under, Shut, Covers, AllHeld, At, Tidy;
      var l1 := LowerStmt(s, cx);
      var m, q := p + |l1.code|, p + |LowerStmts(ss, cx).code|;
      StmtsSplit(C, p, s, next, cx, n);
      StmtHeld(C, p, s, cx, n);
      StmtTidy(s, cx);
      StmtsHeld(C, m, next, l1.cx, n);
      HeldJoin(C, p, m, q, n);
  }

  /** What a statement and the rest of its block need. */
  lemma StmtsSplit(C: seq<Instr>, p: nat, s: Stmt, next: Stmts, cx: Context, n: nat)
    requires LowerStmts(MoreStmts(s, next), cx).Lowered? && NoGotoIn(MoreStmts(s, next)) && Unique(C)
    requires
      var code := LowerStmts(MoreStmts(s, next), cx).code;
      At(C, p, code) && Shut(C, p, p + |code|) && Covers(C, p, p + |code|, cx.scope, n)
    ensures
      var l1 := LowerStmt(s, cx);
      var m, q := p + |l1.code|, p + |LowerStmts(MoreStmts(s, next), cx).code|;
      && At(C, p, l1.code) && Shut(C, p, m) && Covers(C, p, m, cx.scope, n)
      && At(C, m, LowerStmts(next, l1.cx).code) && Shut(C, m, q) && Covers(C, m, q, l1.cx.scope, n)
  {
    hide LowerStmt, NoGoto, Unique, Shut, Covers, Closed, Stays, At;
    var l1 := LowerStmt(s, cx);
    var l2 := LowerStmts(next, l1.cx);
    var m, q := p + |l1.code|, p + |l1.code| + |l2.code|;
    AtSplit(C, p, l1.code, l2.code);
    StmtClosed(s, cx);
    StmtsClosed(next, l1.cx);
    ClosedStays(C, p, l1.code, {}, -1);
    ClosedStays(C, m, l2.code, {}, -1);
    ShutSplit(C, p, m, q, -1);
    CoversLess(C, p, q, p, m, cx.scope, n);
    NextCovers(C, p, q, s, cx, n);
  }

  /** The variables in scope behind a statement have their addresses in the rest of the block. */
  lemma NextCovers(C: seq<Instr>, p: nat, q: nat, s: Stmt, cx: Context, n: nat)
    requires LowerStmt(s, cx).Lowered? && At(C, p, LowerStmt(s, cx).code) && p + |LowerStmt(s, cx).code| <= q <= |C|
    requires Shut(C, p, q) && Stays(C, p + |LowerStmt(s, cx).code|, q, -1) && Covers(C, p, q, cx.scope, n)
    ensures Covers(C, p + |LowerStmt(s, cx).code|, q, LowerStmt(s, cx).cx.scope, n)
  {
    hide Covers, Shut, Stays, Lookup, SetLocal, LowerExpr, LowerIf, LowerWhile, LowerBlock;
    if s.Auto? {
      AtIndex(C, p, [Alloc(cx.temps + 1)], 0);
      AfterAuto(C, p, q, s.name, cx, n);
    } else {
      ScopeSame(s, cx);
      CoversLess(C, p, q, p + |LowerStmt(s, cx).code|, q, cx.scope, n);
    }
  }

  lemma {:induction false} IfHeld(C: seq<Instr>, p: nat, links: Chain, cx: Context, n: nat)
    requires LowerIf(links, cx).Lowered? && NoGotoOf(links) && Unique(C) && At(C, p, LowerIf(links, cx).code)
    requires Under(cx.scope, cx.temps) && Shut(C, p, p + |LowerIf(links, cx).code|)
    requires Covers(C, p, p + |LowerIf(links, cx).code|, cx.scope, n)
    ensures AllHeld(C, p, p + |LowerIf(links, cx).code|, n)
    decreases links, 2
  {
    hide LowerChain, NoGotoOf, Unique, Under, Covers, AllHeld, At, Shut;
    var end := cx.labels + 1;
    var r := LowerChain(links, end, cx.(labels := end));
    var q := p + |r.code|;
    AtSplit(C, p, r.code, [Label(end)]);
    AtIndex(C, q, [Label(end)], 0);
    CoversLess(C, p, q + 1, p, q, cx.scope, n);
    ShutLess(C, p, q);
    ChainHeld(C, p, links, end, cx.(labels := end), n);
    UselessHeld(C, q, q + 1, n);
    HeldJoin(C, p, q, q + 1, n);
  }

  lemma ShutLess(C: seq<Instr>, p: nat, q: nat)
    requires Shut(C, p, q + 1) && q < |C| && C[q].Label?
    ensures Shut(C, p, q)
  {
  }

  lemma {:induction false} ChainHeld(C: seq<Instr>, p: nat, links: Chain, end: nat, cx: Context, n: nat)
    requires LowerChain(links, end, cx).Lowered? && NoGotoOf(links) && Unique(C)
    requires At(C, p, LowerChain(links, end, cx).code)
    requires
      var q := p + |LowerChain(links, end, cx).code|;
      q < |C| && C[q] == Label(end) && Shut(C, p, q) && Covers(C, p, q, cx.scope, n)
    requires Under(cx.scope, cx.temps)
    ensures AllHeld(C, p, p + |LowerChain(links, end, cx).code|, n)
    decreases links, 1
  {
    hide LowerBlock, LowerLink, NoGotoIn, Unique, Under, Shut, Covers, AllHeld, At, Closed, Stays, Tidy, Lookup;
    match links
    case NoChain => UselessHeld(C, p, p, n);
    case Else(body) => BlockHeld(C, p, body, cx, n);
    case Link(cond, body, chain) =>
      var l1 := LowerLink(cond, body, end, cx);
      var l2 := LowerChain(chain, end, l1.cx);
      var m, q := p + |l1.code|, p + |l1.code| + |l2.code|;
      AtSplit(C, p, l1.code, l2.code);
      LinkClosed(cond, body, end, cx);
      ChainClosed(chain, end, l1.cx);
      ClosedStays(C, p, l1.code, {end}, q);
      ClosedStays(C, m, l2.code, {end}, q);
      ShutSplit(C, p, m, q, q);
      CoversLess(C, p, q, p, m, cx.scope, n);
      LinkHeld(C, p, cond, body, end, cx, q, n);
      LinkTidy(cond, body, end, cx);
      LinkScope(cond, body, end, cx);
      CoversLess(C, p, q, m, q, cx.scope, n);
      ChainHeld(C, m, chain, end, l1.cx, n);
      HeldJoin(C, p, m, q, n);
  }

  lemma LinkScope(cond: Expr, body: Stmts, end: nat, cx: Context)
    requires LowerLink(cond, body, end, cx).Lowered?
    ensures LowerLink(cond, body, end, cx).cx.scope == cx.scope
  {
    hide LowerExpr, LowerStmts, BlockTable;
  }

  /** The code around a block: a condition before it, a jump behind it to the label at e. */
  ghost predicate Around(C: seq<Instr>, p: nat, top: seq<Instr>, code: seq<Instr>, br: Instr, block: seq<Instr>, l: nat,
                         e: int)
  {
    && br.Branch? && (top == [] || top == [Label(l)])
    && At(C, p, top + code + [br, Label(br.yes)] + block + [Jump(l), Label(br.no)])
    && 0 <= e < |C| && C[e] == Label(l)
    && (e <= p || e >= p + |top + code + [br, Label(br.yes)] + block + [Jump(l), Label(br.no)]|)
  }

  lemma AroundSplit(C: seq<Instr>, p: nat, top: seq<Instr>, code: seq<Instr>, br: Instr, block: seq<Instr>, l: nat,
                    e: int)
    requires Around(C, p, top, code, br, block, l, e)
    ensures
      var a := p + |top|;
      var m := a + |code| + 2;
      var k := m + |block|;
      && At(C, p, top) && At(C, a, code) && At(C, a, code + [br]) && At(C, m, block) && k + 2 <= |C|
      && C[m - 2] == br && C[m - 1] == Label(br.yes) && C[k] == Jump(l) && C[k + 1] == Label(br.no)
  {
    var x, z := [br, Label(br.yes)], [Jump(l), Label(br.no)];
    assert At(C, p, top + code + x + block + z);
    hide At, Around;
    AtSplit(C, p, top + code + x + block, z);
    AtSplit(C, p, top + code + x, block);
    AtSplit(C, p, top + code, x);
    AtSplit(C, p, top, code);
    var a := p + |top|;
    AtIndex(C, a + |code|, x, 0);
    AtIndex(C, a + |code|, x, 1);
    AtIndex(C, a + |code| + 2 + |block|, z, 0);
    AtIndex(C, a + |code| + 2 + |block|, z, 1);
    AtSnoc(C, a, code, br);
  }

  lemma AtSnoc(C: seq<Instr>, a: nat, code: seq<Instr>, x: Instr)
    requires At(C, a, code) && a + |code| < |C| && C[a + |code|] == x
    ensures At(C, a, code + [x])
  {
    assert C[a..a + |code| + 1] == C[a..a + |code|] + [C[a + |code|]];
  }

  lemma UniqueAt(C: seq<Instr>, i: nat, k: nat)
    requires Unique(C) && i < |C| && k < |C| && C[k].Label? && C[k] == C[i]
    ensures i == k
  {
  }

  lemma AroundShut(C: seq<Instr>, p: nat, top: seq<Instr>, code: seq<Instr>, br: Instr, block: seq<Instr>, l: nat,
                   e: int)
    requires Around(C, p, top, code, br, block, l, e) && Unique(C) && Plain(code)
    requires Shut(C, p, p + |top| + |code| + 2 + |block| + 2)
    ensures Shut(C, p + |top| + |code| + 2, p + |top| + |code| + 2 + |block|)
  {
    hide At, Unique, Plain;
    AroundSplit(C, p, top, code, br, block, l, e);
    var m := p + |top| + |code| + 2;
    var q := m + |block|;
    forall j, k | 0 <= j < |C| && m <= k < q && 0 <= k < |C| && C[k].Label? && Aims(C[j], C[k].id)
      ensures m <= j < q
    {
      if j == m - 2 {
        if C[k] == C[m - 1] {
          UniqueAt(C, m - 1, k);
        } else {
          UniqueAt(C, q + 1, k);
        }
      } else if j == q {
        UniqueAt(C, e, k);
      } else if p + |top| <= j < m - 2 {
        AtIndex(C, p + |top|, code, j - p - |top|);
        PlainAims(code, j - p - |top|, C[k].id);
      } else if p <= j < p + |top| {
        AtIndex(C, p, top, j - p);
      }
    }
  }

  lemma PlainAims(code: seq<Instr>, j: nat, id: nat)
    requires Plain(code) && j < |code|
    ensures !Aims(code[j], id)
  {
  }

  lemma {:induction false} WhileHeld(C: seq<Instr>, p: nat, cond: Expr, body: Stmts, cx: Context, n: nat)
    requires LowerWhile(cond, body, cx).Lowered? && NoGotoIn(body) && Unique(C)
    requires At(C, p, LowerWhile(cond, body, cx).code)
    requires Under(cx.scope, cx.temps) && Shut(C, p, p + |LowerWhile(cond, body, cx).code|)
    requires Covers(C, p, p + |LowerWhile(cond, body, cx).code|, cx.scope, n)
    ensures AllHeld(C, p, p + |LowerWhile(cond, body, cx).code|, n)
    decreases body, 2
  {
    hide LowerExpr, LowerBlock, NoGotoIn, Unique, Under, Shut, Covers, AllHeld, Plain, At;
    var k := cx.labels;
    var low := LowerExpr(cond, cx.scope, cx.temps);
    var cxb := cx.(temps := low.temps, labels := k + 3);
    var r := LowerBlock(body, cxb);
    var br: Instr := Branch(low.out, k + 2, k + 3);
    AtIndex(C, p, LowerWhile(cond, body, cx).code, 0);
    assert Around(C, p, [Label(k + 1)], low.code, br, r.code, k + 1, p);
    CondHeld(C, p, [Label(k + 1)], cond, cx.scope, cx.temps, br, r.code, k + 1, p, n);
    UnderMore(cx.scope, cx.temps, low.temps);
    BlockHeld(C, p + 1 + |low.code| + 2, body, cxb, n);
    HeldAround(C, p, 1 + |low.code| + 2, |r.code|, n);
  }

  lemma HeldAround(C: seq<Instr>, p: nat, a: nat, k: nat, n: nat)
    requires AllHeld(C, p, p + a, n) && AllHeld(C, p + a, p + a + k, n) && AllHeld(C, p + a + k, p + a + k + 2, n)
    ensures AllHeld(C, p, p + a + k + 2, n)
  {
    hide Held, Uses;
  }

  lemma {:induction false} LinkHeld(C: seq<Instr>, p: nat, cond: Expr, body: Stmts, end: nat, cx: Context, e: nat,
                                    n: nat)
    requires LowerLink(cond, body, end, cx).Lowered? && NoGotoIn(body) && Unique(C)
    requires At(C, p, LowerLink(cond, body, end, cx).code)
    requires Under(cx.scope, cx.temps) && Shut(C, p, p + |LowerLink(cond, body, end, cx).code|)
    requires Covers(C, p, p + |LowerLink(cond, body, end, cx).code|, cx.scope, n)
    requires p + |LowerLink(cond, body, end, cx).code| <= e < |C| && C[e] == Label(end)
    ensures AllHeld(C, p, p + |LowerLink(cond, body, end, cx).code|, n)
    decreases body, 2
  {
    hide LowerExpr, LowerBlock, LowerLink, NoGotoIn, Unique, Under, Shut, Covers, AllHeld, Plain, At;
    LinkCode(cond, body, end, cx);
    var k := cx.labels;
    var low := LowerExpr(cond, cx.scope, cx.temps);
    var cxb := cx.(temps := low.temps, labels := k + 2);
    var r := LowerBlock(body, cxb);
    var br: Instr := Branch(low.out, k + 1, k + 2);
    assert [] + low.code == low.code;
    assert Around(C, p, [], low.code, br, r.code, end, e);
    CondHeld(C, p, [], cond, cx.scope, cx.temps, br, r.code, end, e, n);
    UnderMore(cx.scope, cx.temps, low.temps);
    BlockHeld(C, p + |low.code| + 2, body, cxb, n);
    HeldAround(C, p, |low.code| + 2, |r.code|, n);
  }

  /** Everything around the block, and what the block needs. */
  lemma CondHeld(C: seq<Instr>, p: nat, top: seq<Instr>, cond: Expr, sc: Scope, c: nat, br: Instr, block: seq<Instr>,
                 l: nat, e: int, n: nat)
    requires LowerExpr(cond, sc, c).Low? && Around(C, p, top, LowerExpr(cond, sc, c).code, br, block, l, e) && Unique(C)
    requires br.cond == LowerExpr(cond, sc, c).out && Under(sc, c)
    requires
      var q := p + |top| + |LowerExpr(cond, sc, c).code| + 2 + |block| + 2;
      Shut(C, p, q) && Covers(C, p, q, sc, n)
    ensures
      var m := p + |top| + |LowerExpr(cond, sc, c).code| + 2;
      && AllHeld(C, p, m, n) && AllHeld(C, m + |block|, m + |block| + 2, n)
      && At(C, m, block) && Shut(C, m, m + |block|) && Covers(C, m, m + |block|, sc, n)
  {
    hide LowerExpr, Unique, Under, Shut, Covers, AllHeld, Plain, At;
    var code := LowerExpr(cond, sc, c).code;
    var a := p + |top|;
    var m := a + |code| + 2;
    var q := m + |block|;
    AroundSplit(C, p, top, code, br, block, l, e);
    ExprPlain(cond, sc, c);
    AroundShut(C, p, top, code, br, block, l, e);
    CoversLess(C, p, q + 2, m, q, sc, n);
    CoversLess(C, p, q + 2, a, m - 1, sc, n);
    ExprHeld(C, a, cond, sc, c, br, [br], n);
    if top != [] {
      AtIndex(C, p, top, 0);
    }
    UselessHeld(C, p, a, n);
    UselessHeld(C, m - 1, m, n);
    UselessHeld(C, q, q + 2, n);
    HeldJoin(C, p, a, m - 1, n);
    HeldJoin(C, p, m - 1, m, n);
  }

  // ----- whole functions -----

  lemma {:induction false} PrologueSupplied(n: nat, i: nat, A: set<nat>)
    requires i <= n
    ensures Supplied(Prologue(n, i), A, n)
    decreases i
  {
    hide Supplied;
    if i == 0 {
      Useless([], A, n);
    } else {
      PrologueSupplied(n, i - 1, A);
      ParamSupplied(n, i, A);
      SuppliedSum(Prologue(n, i - 1), [Alloc(n + i), Instr.Store(n + i, i), Instr.Address(i, n + i)], A, n);
    }
  }

  lemma ParamSupplied(n: nat, i: nat, A: set<nat>)
    requires 1 <= i <= n
    ensures Supplied([Alloc(n + i), Instr.Store(n + i, i), Instr.Address(i, n + i)], A, n)
  {
    var code: seq<Instr> := [Alloc(n + i), Instr.Store(n + i, i), Instr.Address(i, n + i)];
    assert code[0].dest == n + i;
    assert LabelFree(code, 0, 1) && LabelFree(code, 0, 2);
    assert Served(code, 1, n + i) && Served(code, 2, n + i);
  }

  lemma EpilogueSupplied(code: seq<Instr>, c: nat, A: set<nat>, n: nat)
    ensures Supplied(Epilogue(code, c), A, n)
  {
    var e := Epilogue(code, c);
    if e != [] {
      assert e[0] == Const(c + 1, 0) && LabelFree(e, 0, 1);
      assert Served(e, 1, c + 1);
    }
  }

  lemma OpeningSupplied(n: nat, A: set<nat>)
    ensures Supplied(FS.Opening(n), A, n)
  {
    hide Supplied;
    Useless([Label(1)], A, n);
    PrologueSupplied(n, n, A);
    SuppliedSum([Label(1)], Prologue(n, n), A, n);
  }

  lemma {:induction false} ParamsWithin(params: seq<string>, x: string)
    ensures x in ParamTemps(params) ==> 1 <= ParamTemps(params)[x] <= |params|
    decreases |params|
  {
    if params != [] {
      ParamsWithin(params[..|params| - 1], x);
    }
  }

  /** Parameters, temps set on the straight way, and the addresses of `auto`s: nothing else is used. */
  lemma FunctionSupplied(f: Function, globals: set<string>, A: set<nat>)
    requires LowerFunction(f, globals).Some? && FS.Body(f, globals).Lowered?
    requires forall t :: 1 <= t <= |f.params| || t in AllocTemps(FS.Body(f, globals).code) ==> t in A
    ensures Supplied(LowerFunction(f, globals).value.code, A, |f.params|)
  {
    hide LowerBlock, LowerFunction, Prologue, Epilogue, Supplied, Under, AllocTemps, FS.Opening;
    var n, b := |f.params|, FS.Body(f, globals);
    FS.FunctionDef(f, globals);
    Layouts.FirstUnder(f, globals);
    FirstAmong(f, globals, A);
    BlockSupplied(f.body, FirstContext(f, globals), A, n);
    OpeningSupplied(n, A);
    EpilogueSupplied(FS.Opening(n) + b.code, b.cx.temps, A, n);
    SuppliedSum(FS.Opening(n), b.code, A, n);
    SuppliedSum(FS.Opening(n) + b.code, Epilogue(FS.Opening(n) + b.code, b.cx.temps), A, n);
  }

  /** Without `goto`, every temp is set wherever it is used. */
  lemma FunctionHeld(f: Function, globals: set<string>)
    requires LowerFunction(f, globals).Some? && Distinct(LabelsIn(f.body)) && NoGotoIn(f.body)
    ensures
      var C := LowerFunction(f, globals).value.code;
      AllHeld(C, 0, |C|, |f.params|)
  {
    hide LowerBlock, LowerFunction, Prologue, Epilogue, Supplied, Under, FS.Opening, Unique, Shut, Covers, AllHeld, At,
      NoGotoIn, LabelsIn, CF.Leads;
    var n, b := |f.params|, FS.Body(f, globals);
    var C := LowerFunction(f, globals).value.code;
    FS.FunctionDef(f, globals);
    CF.FunctionSealed(f, globals);
    var open := FS.Opening(n);
    var e := Epilogue(open + b.code, b.cx.temps);
    var p := |open|;
    WholeSplit(C, open, b.code, e);
    OpeningSupplied(n, {});
    EpilogueSupplied(open + b.code, b.cx.temps, {}, n);
    SuppliedHeld(C, 0, open, {}, n);
    SuppliedHeld(C, p + |b.code|, e, {}, n);
    Layouts.FirstUnder(f, globals);
    BodyShut(f, globals);
    FirstCovers(C, p, p + |b.code|, f, globals);
    BlockHeld(C, p, f.body, FirstContext(f, globals), n);
    HeldJoin(C, 0, p, p + |b.code|, n);
    HeldJoin(C, 0, p + |b.code|, |C|, n);
  }

  lemma WholeSplit(C: seq<Instr>, a: seq<Instr>, b: seq<Instr>, c: seq<Instr>)
    requires C == a + b + c
    ensures At(C, 0, a) && At(C, |a|, b) && At(C, |a| + |b|, c)
  {
    assert C[0..|C|] == a + b + c;
    AtSplit(C, 0, a + b, c);
    AtSplit(C, 0, a, b);
  }

  lemma ParamLookup(params: seq<string>, globals: set<string>, x: string)
    ensures
      var sc := Inner(ParamTemps(params), Globals(globals));
      Lookup(sc, x).Local? ==> 1 <= Lookup(sc, x).n <= |params|
  {
    ParamsWithin(params, x);
    assert !Lookup(Globals(globals), x).Local?;
  }

  lemma FirstAmong(f: Function, globals: set<string>, A: set<nat>)
    requires forall t :: 1 <= t <= |f.params| ==> t in A
    ensures Among(FirstContext(f, globals).scope, A)
  {
    hide Lookup, ParamTemps;
    var sc := FirstContext(f, globals).scope;
    forall x: string | Lookup(sc, x).Local?
      ensures Lookup(sc, x).n in A
    {
      ParamLookup(f.params, globals, x);
    }
  }

  lemma FirstCovers(C: seq<Instr>, p: int, q: int, f: Function, globals: set<string>)
    ensures Covers(C, p, q, FirstContext(f, globals).scope, |f.params|)
  {
    hide Available, Lookup, ParamTemps;
    var sc := FirstContext(f, globals).scope;
    forall x: string | Lookup(sc, x).Local?
      ensures Lookup(sc, x).n <= |f.params|
    {
      ParamLookup(f.params, globals, x);
    }
  }

  lemma BodyShut(f: Function, globals: set<string>)
    requires LowerFunction(f, globals).Some? && FS.Body(f, globals).Lowered?
    ensures
      var p := |FS.Opening(|f.params|)|;
      Shut(LowerFunction(f, globals).value.code, p, p + |FS.Body(f, globals).code|)
  {
    hide LowerFunction, FS.Body, FS.Opening;
    var C := LowerFunction(f, globals).value.code;
    var p := |FS.Opening(|f.params|)|;
    forall j, k | 0 <= j < |C| && 0 <= k < |C| && C[k].Label? && Aims(C[j], C[k].id)
      ensures p <= j < p + |FS.Body(f, globals).code|
    {
      CF.OnlyBody(f, globals, j);
    }
  }

  // ----- runs -----

  /** Function i of the machine is the lowered function i of the program. */
  lemma BootSteady(p: Program, m: Machine, entry: nat, base: Word, args: seq<Word>, n: nat)
    requires LowerProgram(p) == Some(m.fns) && entry < |m.fns| && |args| == m.fns[entry].params
    ensures Steady(m, Run(m, FS.Boot(p, m, entry, base, args), n))
  {
    hide LowerProgram, Steady, AllHave, Run;
    BottomHas(m);
    EnteredSteady(m, m.fns[entry], base, args, Bottom, FS.S.GlobalMemory(p, m.w), []);
    RunSteady(m, FS.Boot(p, m, entry, base, args), n);
  }

  lemma BottomHas(m: Machine)
    ensures AllHave(m, Bottom)
  {
  }

  /** In any lowered program, `goto` or not, a temp that is used before it is set is the temp of an
      `auto` of the function, used as an address: expressions never read what they did not compute. */
  lemma OnlySkippedAutos(p: Program, m: Machine, entry: nat, base: Word, args: seq<Word>, n: nat)
    requires LowerProgram(p) == Some(m.fns) && entry < |m.fns| && |args| == m.fns[entry].params
    ensures
      var s := Run(m, FS.Boot(p, m, entry, base, args), n);
      s.Running? && Step(m, s).Faulted? && Step(m, s).why == Unset ==>
        && s.stack.Push? && s.stack.act.pc < |s.stack.act.fn.code|
        && exists t :: t in AllocTemps(s.stack.act.fn.code) && t > 2 * s.stack.act.fn.params
                       && Through(s.stack.act.fn.code[s.stack.act.pc], t) && t !in s.stack.act.temps
  {
    hide LowerFunction, Run, Step, Uses, Through, AllocTemps, FS.Boot, Steady, Supplied, AllHave;
    BootSteady(p, m, entry, base, args, n);
    var s := Run(m, FS.Boot(p, m, entry, base, args), n);
    if s.Running? && Step(m, s).Faulted? && Step(m, s).why == Unset {
      var t := UnsetUse(m, s);
      UnsetNotHeld(m, s, t);
      var act := s.stack.act;
      var i :| 0 <= i < |m.fns| && m.fns[i] == act.fn;
      ParamsOf(p.fns[i], p.globals.Keys);
      SuppliedOrAuto(p.fns[i], p.globals.Keys, act.pc, t);
    }
  }

  lemma SuppliedOrAuto(f: Function, globals: set<string>, pc: nat, t: nat)
    requires LowerFunction(f, globals).Some?
    requires
      var C := LowerFunction(f, globals).value.code;
      pc < |C| && t in Uses(C[pc]) && !Held(C, pc, t)
    requires !(1 <= t <= |f.params|)
    ensures
      var C := LowerFunction(f, globals).value.code;
      t in AllocTemps(C) && t > 2 * |f.params| && Through(C[pc], t) && LowerFunction(f, globals).value.params
        == |f.params|
  {
    hide LowerFunction, Uses, Through, AllocTemps, LowerBlock, FS.Opening, Epilogue, Held, Served;
    FS.FunctionDef(f, globals);
    var C, b := LowerFunction(f, globals).value.code, FS.Body(f, globals);
    var n := |f.params|;
    forall u | 1 <= u <= n
      ensures u in Upto(0, n)
    {
      assert Upto(0, n)[u - 1] == u;
    }
    ghost var A := (set u | u in AllocTemps(b.code)) + (set u | u in Upto(0, n));
    FunctionSupplied(f, globals, A);
    if Served(C, pc, t) {
      ServedHeld(C, pc, t);
    }
    BlockAllocs(f.body, FirstContext(f, globals));
    AllocTempsSum(FS.Opening(n), b.code);
    AllocTempsSum(FS.Opening(n) + b.code, Epilogue(FS.Opening(n) + b.code, b.cx.temps));
  }

  /** While a function without `goto` runs, no temp is read before it is written, whatever the rest
      of the program does. */
  lemma NoRunReadsUnset(p: Program, m: Machine, entry: nat, base: Word, args: seq<Word>, n: nat, i: nat)
    requires LowerProgram(p) == Some(m.fns) && entry < |m.fns| && |args| == m.fns[entry].params
    requires i < |p.fns| && Distinct(LabelsIn(p.fns[i].body)) && NoGotoIn(p.fns[i].body)
    ensures
      var s := Run(m, FS.Boot(p, m, entry, base, args), n);
      s.Running? && s.stack.Push? && s.stack.act.fn == m.fns[i] && Step(m, s).Faulted? ==> Step(m, s).why != Unset
  {
    hide LowerFunction, Run, Step, Uses, FS.Boot, Steady, AllHave, Held, LabelsIn, NoGotoIn;
    BootSteady(p, m, entry, base, args, n);
    var s := Run(m, FS.Boot(p, m, entry, base, args), n);
    if s.Running? && s.stack.Push? && s.stack.act.fn == m.fns[i] && Step(m, s).Faulted? && Step(m, s).why == Unset {
      var t := UnsetUse(m, s);
      UnsetNotHeld(m, s, t);
      FunctionHeld(p.fns[i], p.globals.Keys);
      ParamsOf(p.fns[i], p.globals.Keys);
    }
  }

  lemma ParamsOf(f: Function, globals: set<string>)
    requires LowerFunction(f, globals).Some?
    ensures LowerFunction(f, globals).value.params == |f.params|
  {
    hide LowerBlock, Prologue, Epilogue;
  }
}
