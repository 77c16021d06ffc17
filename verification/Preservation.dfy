/** Lowering preserves meaning: the induction over statements, and whole functions. */
module Preservation {
  import opened Words
  import opened Ast
  import opened Scopes
  import opened Ir
  import opened Lowering
  import opened CodeShape
  import opened CodeLabels
  import opened Placement
  import opened ExprSimulation
  import opened StmtSimulation
  import S = Source

  // ----- expressions inside statements -----

  lemma Quiet(D: seq<nat>, k: nat, c: nat, d: nat)
    requires Owns(D, k, c, d, [])
    ensures Apart(D, c, d)
  {
  }

  /** The expression at the start of a piece of code. */
  lemma {:induction false} ExprAt(p: Program, m: Machine, D: seq<nat>, tab: map<string, nat>, cx: Context,
      fr: S.Frame, e: Expr, k: nat, act: Act, rest: Stack, mem: Memory, tr: seq<Event>, fuel: nat)
    returns (T: map<nat, Word>)
    requires Calls(p, m, fuel) && LowerExpr(e, cx.scope, cx.temps).Low?
    requires Matched(p, m, cx.scope, fr, D, act)
    requires
      var low := LowerExpr(e, cx.scope, cx.temps);
      Sited(act.fn.code, D, tab, k, act.pc, low.code, cx, cx.(temps := low.temps))
    ensures
      var low := LowerExpr(e, cx.scope, cx.temps);
      var r := S.Eval(p, m.w, fr, e, mem, tr, fuel);
      && After(m, low, r, cx.temps, act, rest, mem, tr, fuel, T)
      && (r.Ok? ==> StorageOK(m.w, fr, D, T))
  {
    hide Calls, Compiled, ScopeOK, At, S.Eval, LowerExpr, Comes, Plain, AllocTemps, Fits;
    var low := LowerExpr(e, cx.scope, cx.temps);
    ExprPlain(e, cx.scope, cx.temps);
    PlainAllocs(low.code);
    Quiet(D, k, cx.temps, low.temps);
    T := ExprSim(p, m, cx.scope, fr, D, e, cx.temps, act, rest, mem, tr, fuel);
  }

  lemma CleanOn(C: seq<Instr>, pc: nat, code: seq<Instr>)
    requires At(C, pc, code) && Plain(code) && Clean(C, pc)
    ensures Clean(C, pc + |code|)
  {
    if code != [] {
      assert C[pc + |code| - 1] == C[pc..pc + |code|][|code| - 1];
    }
  }

  // ----- scopes -----

  /** Every `auto` of the list is in the innermost table. */
  predicate DeclaredIn(ss: Stmts, sc: Scope) {
    match ss
    case NoStmts => sc.Inner?
    case MoreStmts(s, next) => sc.Inner? && (s.Auto? ==> s.name in sc.symtab) && DeclaredIn(next, sc)
  }

  lemma {:induction false} TableDeclares(ss: Stmts, tab: map<string, nat>, parent: Scope)
    requires BlockTable(ss).Keys <= tab.Keys
    ensures DeclaredIn(ss, Inner(tab, parent))
    ensures forall x :: x in BlockTable(ss) ==> BlockTable(ss)[x] == 0
  {
    match ss
    case NoStmts =>
    case MoreStmts(s, next) => TableDeclares(next, tab, parent);
  }

  lemma {:induction false} StillDeclared(ss: Stmts, sc: Scope, sc1: Scope)
    requires DeclaredIn(ss, sc) && sc1.Inner? && sc1.symtab.Keys == sc.symtab.Keys
    ensures DeclaredIn(ss, sc1)
  {
    match ss
    case NoStmts =>
    case MoreStmts(s, next) => StillDeclared(next, sc, sc1);
  }

  /** The scope after a statement: only an `auto` changes it. */
  lemma {:induction false} ScopeAfter(s: Stmt, cx: Context)
    requires LowerStmt(s, cx).Lowered?
    ensures LowerStmt(s, cx).cx.scope ==
              if s.Auto? then SetLocal(cx.scope, s.name, cx.temps + 1) else cx.scope
  {
    hide LowerExpr, LowerBlock, LowerWhile, SetLocal, LowerChain;
    match s
    case Block(body) => ScopeAfterBlock(body, cx);
    case While(cond, body) => ScopeAfterWhile(cond, body, cx);
    case If(links) => ScopeAfterChain(links, cx.labels + 1, cx.(labels := cx.labels + 1));
    case _ =>
  }

  lemma {:induction false} ScopeAfterChain(links: Chain, end: nat, cx: Context)
    requires LowerChain(links, end, cx).Lowered?
    ensures LowerChain(links, end, cx).cx.scope == cx.scope
  {
    hide LowerBlock, LowerLink;
    match links
    case NoChain =>
    case Else(body) => ScopeAfterBlock(body, cx);
    case Link(cond, body, chain) =>
      ScopeAfterLink(cond, body, end, cx);
      ScopeAfterChain(chain, end, LowerLink(cond, body, end, cx).cx);
  }

  lemma ScopeAfterBlock(body: Stmts, cx: Context)
    requires LowerBlock(body, cx).Lowered?
    ensures LowerBlock(body, cx).cx.scope == cx.scope
  {
    hide LowerStmts;
  }

  lemma ScopeAfterWhile(cond: Expr, body: Stmts, cx: Context)
    requires LowerWhile(cond, body, cx).Lowered?
    ensures LowerWhile(cond, body, cx).cx.scope == cx.scope
  {
    hide LowerExpr, LowerBlock;
    var low := LowerExpr(cond, cx.scope, cx.temps);
    ScopeAfterBlock(body, cx.(temps := low.temps, labels := cx.labels + 3));
  }

  lemma ScopeAfterLink(cond: Expr, body: Stmts, end: nat, cx: Context)
    requires LowerLink(cond, body, end, cx).Lowered?
    ensures LowerLink(cond, body, end, cx).cx.scope == cx.scope
  {
    hide LowerExpr, LowerBlock;
    var low := LowerExpr(cond, cx.scope, cx.temps);
    ScopeAfterBlock(body, cx.(temps := low.temps, labels := cx.labels + 2));
  }

  lemma ScopesAgree(s: Stmt, cx: Context, fr: S.Frame, k: nat, D: seq<nat>)
    requires LowerStmt(s, cx).Lowered? && ScopeOK(cx.scope, fr.scope, D)
    requires s.Auto? ==> && cx.scope.Inner? && s.name in cx.scope.symtab
                         && k < |D| && D[k] == cx.temps + 1
    ensures ScopeOK(LowerStmt(s, cx).cx.scope, S.After(fr, s, k).scope, D)
  {
    hide LowerStmt;
    ScopeAfter(s, cx);
  }

  // ----- definitions, one unfolding each -----

  lemma LowerListDef(s: Stmt, next: Stmts, cx: Context)
    requires LowerStmts(MoreStmts(s, next), cx).Lowered?
    ensures
      var l1 := LowerStmt(s, cx);
      l1.Lowered? &&
      var l2 := LowerStmts(next, l1.cx);
      l2.Lowered? && LowerStmts(MoreStmts(s, next), cx) == Lowered(l1.code + l2.code, l2.cx)
  {
    hide LowerStmt;
  }

  lemma ExecListDef(p: Program, w: World, fr: S.Frame, s: Stmt, next: Stmts, k: nat, mode: S.Mode,
                    mem: Memory, tr: seq<Event>, fuel: nat)
    ensures
      S.ExecAll(p, w, fr, MoreStmts(s, next), k, mode, mem, tr, fuel) ==
        if mode == S.Start || mode.target in Labels(s) then
          var o := S.Exec(p, w, fr, s, k, mode, mem, tr, fuel);
          if o.Next? then
            S.ExecAll(p, w, S.After(fr, s, k).(bound := o.bound), next, k + Autos(s), S.Start, o.mem, o.trace, fuel)
          else o
        else S.ExecAll(p, w, S.After(fr, s, k), next, k + Autos(s), mode, mem, tr, fuel)
  {
    hide S.Exec;
  }

  // ----- the induction -----

  /** Lowered code at its place, entered in a state that matches the source. */
  ghost predicate Ready(p: Program, m: Machine, D: seq<nat>, tab: map<string, nat>, cx: Context,
                        fr: S.Frame, k: nat, mode: S.Mode, pc: nat, act: Act, low: LowStmt,
                        names: seq<string>)
  {
    && low.Lowered?
    && Matched(p, m, cx.scope, fr, D, act)
    && Sited(act.fn.code, D, tab, k, pc, low.code, cx, low.cx)
    && Enters(mode, act, pc, tab, names)
  }

  /** The run does what the source does, and code that falls through does so cleanly. */
  ghost predicate Follows(m: Machine, act: Act, rest: Stack, mem: Memory, tr: seq<Event>, end: nat,
                          o: S.Outcome, T: map<nat, Word>, fr: S.Frame, D: seq<nat>,
                          tab: map<string, nat>, fuel: nat)
  {
    && Does(m, Here(act, rest, mem, tr), act, rest, end, o, T, fr, D, tab, fuel)
    && (o.Next? ==> Clean(act.fn.code, end))
  }

  /** From the head of a list to its tail, after falling through the head. */
  lemma Onward(p: Program, m: Machine, D: seq<nat>, tab: map<string, nat>, cx: Context, fr: S.Frame,
               s: Stmt, next: Stmts, k: nat, mode: S.Mode, pc: nat, act: Act, bound: set<nat>,
               T: map<nat, Word>)
    requires LowerStmts(MoreStmts(s, next), cx).Lowered?
    requires Ready(p, m, D, tab, cx, fr, k, mode, pc, act, LowerStmts(MoreStmts(s, next), cx),
                   LabelsIn(MoreStmts(s, next)))
    requires DeclaredIn(MoreStmts(s, next), cx.scope)
    requires StorageOK(m.w, Bare(fr, bound), D, T)
    ensures
      var l1 := LowerStmt(s, cx);
      var pc1 := pc + |l1.code|;
      && l1.Lowered? && LowerStmts(next, l1.cx).Lowered?
      && DeclaredIn(next, l1.cx.scope)
      && Matched(p, m, l1.cx.scope, S.After(fr, s, k).(bound := bound), D, Then(act, pc1, T))
      && Sited(act.fn.code, D, tab, k, pc, l1.code, cx, l1.cx)
      && Sited(act.fn.code, D, tab, k + Autos(s), pc1, LowerStmts(next, l1.cx).code, l1.cx,
               LowerStmts(next, l1.cx).cx)
      && LowerStmts(MoreStmts(s, next), cx) ==
           Lowered(l1.code + LowerStmts(next, l1.cx).code, LowerStmts(next, l1.cx).cx)
      && (s.Auto? ==> cx.scope.Inner? && s.name in cx.scope.symtab)
  {
    hide LowerStmt, LowerStmts, StorageOK, ScopeOK, Sited, Compiled, Kept, Rising, AllocTemps;
    LowerListDef(s, next, cx);
    var l1 := LowerStmt(s, cx);
    var l2 := LowerStmts(next, l1.cx);
    HeadTail(act.fn.code, D, tab, k, pc, s, next, cx);
    if s.Auto? {
      AutoTemp(act.fn.code, D, tab, k, pc, s, cx);
    }
    ScopesAgree(s, cx, fr, k, D);
    ScopeAfter(s, cx);
    StillDeclared(next, cx.scope, l1.cx.scope);
    BareStorage(m.w, fr, S.After(fr, s, k).scope, bound, D, T);
  }

  lemma HeadTail(C: seq<Instr>, D: seq<nat>, tab: map<string, nat>, k: nat, pc: nat, s: Stmt, next: Stmts,
                 cx: Context)
    requires LowerStmt(s, cx).Lowered? && LowerStmts(next, LowerStmt(s, cx).cx).Lowered?
    requires
      var l1 := LowerStmt(s, cx);
      var l2 := LowerStmts(next, l1.cx);
      Sited(C, D, tab, k, pc, l1.code + l2.code, cx, l2.cx)
    ensures
      var l1 := LowerStmt(s, cx);
      var l2 := LowerStmts(next, l1.cx);
      && Sited(C, D, tab, k, pc, l1.code, cx, l1.cx)
      && Sited(C, D, tab, k + Autos(s), pc + |l1.code|, l2.code, l1.cx, l2.cx)
  {
    hide LowerStmt, LowerStmts, At, Fits, Owns, Rising, AllocTemps, Defines, Closed, Autos, AutosIn;
    var l1 := LowerStmt(s, cx);
    var l2 := LowerStmts(next, l1.cx);
    StmtAllocs(s, cx);
    StmtsAllocs(next, l1.cx);
    StmtKept(s, cx);
    StmtsKept(next, l1.cx);
    SitedSum(C, D, tab, k, pc, l1.code, l2.code, cx, l1.cx, l2.cx);
  }

  lemma AutoTemp(C: seq<Instr>, D: seq<nat>, tab: map<string, nat>, k: nat, pc: nat, s: Stmt, cx: Context)
    requires s.Auto? && LowerStmt(s, cx).Lowered?
    requires Sited(C, D, tab, k, pc, LowerStmt(s, cx).code, cx, LowerStmt(s, cx).cx)
    ensures k < |D| && D[k] == cx.temps + 1
  {
    hide At, Fits, Sound, Agrees, Increasing, SetLocal, AllocTemps;
    assert LowerStmt(s, cx).code == [Alloc(cx.temps + 1)];
    OneAlloc(Alloc(cx.temps + 1));
    assert AllocTemps(LowerStmt(s, cx).code)[0] == cx.temps + 1;
  }

  lemma {:induction false} StmtsSim(p: Program, m: Machine, D: seq<nat>, tab: map<string, nat>, cx: Context,
      fr: S.Frame, ss: Stmts, k: nat, mode: S.Mode, pc: nat, act: Act, rest: Stack, mem: Memory,
      tr: seq<Event>, fuel: nat)
    returns (T: map<nat, Word>)
    requires Calls(p, m, fuel) && DeclaredIn(ss, cx.scope)
    requires Ready(p, m, D, tab, cx, fr, k, mode, pc, act, LowerStmts(ss, cx), LabelsIn(ss))
    ensures Follows(m, act, rest, mem, tr, pc + |LowerStmts(ss, cx).code|,
                    S.ExecAll(p, m.w, fr, ss, k, mode, mem, tr, fuel), T, fr, D, tab, fuel)
    decreases fuel, ss, 0
  {
    hide Calls, Compiled, ScopeOK, StorageOK, Sited, S.Exec, LowerStmt, LowerStmts, S.ExecAll, Does,
      Reaches, Lasts, Clean, Autos, AutosIn;
    var s0 := Here(act, rest, mem, tr);
    match ss
    case NoStmts =>
      T := act.temps;
      EmptySim(p, m, D, tab, cx, fr, k, mode, pc, act, rest, mem, tr, fuel);
    case MoreStmts(s, next) =>
      var l1 := LowerStmt(s, cx);
      BareStorage(m.w, fr, fr.scope, fr.bound, D, act.temps);
      Onward(p, m, D, tab, cx, fr, s, next, k, mode, pc, act, fr.bound, act.temps);
      ExecListDef(p, m.w, fr, s, next, k, mode, mem, tr, fuel);
      var end := pc + |LowerStmts(ss, cx).code|;
      if mode == S.Start || mode.target in Labels(s) {
        var U := StmtSim(p, m, D, tab, cx, fr, s, k, mode, pc, act, rest, mem, tr, fuel);
        var o := S.Exec(p, m.w, fr, s, k, mode, mem, tr, fuel);
        if o.Next? {
          var act1 := Then(act, pc + |l1.code|, U);
          DoesNext(m, s0, act, rest, pc + |l1.code|, o, U, fr, D, tab, fuel);
          Onward(p, m, D, tab, cx, fr, s, next, k, mode, pc, act, o.bound, U);
          T := StmtsSim(p, m, D, tab, l1.cx, S.After(fr, s, k).(bound := o.bound), next, k + Autos(s),
                        S.Start, pc + |l1.code|, act1, rest, o.mem, o.trace, fuel);
          DoesFrom(m, s0, Here(act1, rest, o.mem, o.trace), act, act1, rest, end,
                   S.ExecAll(p, m.w, S.After(fr, s, k).(bound := o.bound), next, k + Autos(s), S.Start,
                             o.mem, o.trace, fuel),
                   T, fr, S.After(fr, s, k).(bound := o.bound), D, tab, fuel);
        } else {
          T := U;
          DoesElsewhere(m, s0, act, rest, pc + |l1.code|, end, o, U, fr, D, tab, fuel);
        }
      } else {
        assert Then(act, act.pc, act.temps) == act;
        T := StmtsSim(p, m, D, tab, l1.cx, S.After(fr, s, k).(bound := fr.bound), next, k + Autos(s), mode,
                      pc + |l1.code|, act, rest, mem, tr, fuel);
        ReachesSelf(m, s0);
        assert S.After(fr, s, k).(bound := fr.bound) == S.After(fr, s, k);
        DoesFrom(m, s0, s0, act, act, rest, end,
                 S.ExecAll(p, m.w, S.After(fr, s, k), next, k + Autos(s), mode, mem, tr, fuel),
                 T, fr, S.After(fr, s, k), D, tab, fuel);
      }
  }

  lemma DoesNext(m: Machine, s: State, act: Act, rest: Stack, end: nat, o: S.Outcome, T: map<nat, Word>,
                 fr: S.Frame, D: seq<nat>, tab: map<string, nat>, fuel: nat)
    requires Does(m, s, act, rest, end, o, T, fr, D, tab, fuel) && o.Next?
    ensures Reaches(m, s, Here(Then(act, end, T), rest, o.mem, o.trace), 0)
    ensures StorageOK(m.w, Bare(fr, o.bound), D, T)
  {
    hide Reaches, StorageOK;
  }

  lemma EmptySim(p: Program, m: Machine, D: seq<nat>, tab: map<string, nat>, cx: Context, fr: S.Frame,
                 k: nat, mode: S.Mode, pc: nat, act: Act, rest: Stack, mem: Memory, tr: seq<Event>, fuel: nat)
    requires Ready(p, m, D, tab, cx, fr, k, mode, pc, act, LowerStmts(NoStmts, cx), [])
    ensures mode == S.Start && LowerStmts(NoStmts, cx).code == []
    ensures S.ExecAll(p, m.w, fr, NoStmts, k, mode, mem, tr, fuel) == S.Next(mem, tr, fr.bound)
    ensures Follows(m, act, rest, mem, tr, pc, S.Next(mem, tr, fr.bound), act.temps, fr, D, tab, fuel)
  {
    hide Compiled, ScopeOK, StorageOK, Sited, Reaches, Lasts;
    ReachesSelf(m, Here(act, rest, mem, tr));
    assert Then(act, pc, act.temps) == act;
    BareStorage(m.w, fr, fr.scope, fr.bound, D, act.temps);
  }

  lemma {:induction false} StmtSim(p: Program, m: Machine, D: seq<nat>, tab: map<string, nat>, cx: Context,
      fr: S.Frame, s: Stmt, k: nat, mode: S.Mode, pc: nat, act: Act, rest: Stack, mem: Memory,
      tr: seq<Event>, fuel: nat)
    returns (T: map<nat, Word>)
    requires Calls(p, m, fuel)
    requires s.Auto? ==> cx.scope.Inner? && s.name in cx.scope.symtab
    requires Ready(p, m, D, tab, cx, fr, k, mode, pc, act, LowerStmt(s, cx), Labels(s))
    ensures Follows(m, act, rest, mem, tr, pc + |LowerStmt(s, cx).code|,
                    S.Exec(p, m.w, fr, s, k, mode, mem, tr, fuel), T, fr, D, tab, fuel)
    decreases fuel, s, 1
  {
    hide Calls, Ready, LowerExpr, LowerBlock, LowerWhile, LowerChain, S.Eval, S.ExecAll, S.ExecChain, S.Again,
      S.ExecPlain, Follows, SetLocal, Numbered;
    match s
    case Block(body) =>
      T := BlockSim(p, m, D, tab, cx, fr, body, k, mode, pc, act, rest, mem, tr, fuel);
    case If(links) =>
      T := IfSim(p, m, D, tab, cx, fr, links, k, mode, pc, act, rest, mem, tr, fuel);
    case While(cond, body) =>
      T := WhileSim(p, m, D, tab, cx, fr, cond, body, k, mode, pc, act, rest, mem, tr, fuel);
    case Lable(name) =>
      LableSim(p, m, D, tab, cx, fr, name, k, mode, pc, act, rest, mem, tr, fuel);
      T := act.temps;
    case _ =>
      PlainStart(p, m, D, tab, cx, fr, s, k, mode, pc, act);
      T := PlainSim(p, m, D, tab, cx, fr, s, k, pc, act, rest, mem, tr, fuel);
  }

  /** No label is inside a statement that contains no others. */
  lemma PlainStart(p: Program, m: Machine, D: seq<nat>, tab: map<string, nat>, cx: Context, fr: S.Frame,
                   s: Stmt, k: nat, mode: S.Mode, pc: nat, act: Act)
    requires Ready(p, m, D, tab, cx, fr, k, mode, pc, act, LowerStmt(s, cx), Labels(s))
    requires !s.Block? && !s.If? && !s.While? && !s.Lable?
    ensures mode == S.Start
  {
    hide Matched, Sited, LowerStmt, Clean;
  }

  /** A label is passed, or landed on. */
  lemma LableSim(p: Program, m: Machine, D: seq<nat>, tab: map<string, nat>, cx: Context, fr: S.Frame,
                 name: string, k: nat, mode: S.Mode, pc: nat, act: Act, rest: Stack, mem: Memory,
                 tr: seq<Event>, fuel: nat)
    requires Ready(p, m, D, tab, cx, fr, k, mode, pc, act, LowerStmt(Lable(name), cx), [name])
    ensures Follows(m, act, rest, mem, tr, pc + |LowerStmt(Lable(name), cx).code|,
                    S.Exec(p, m.w, fr, Lable(name), k, mode, mem, tr, fuel), act.temps, fr, D, tab, fuel)
  {
    hide Ready, StorageOK, Reaches, Lasts, Step, LowerStmt;
    var s0 := Here(act, rest, mem, tr);
    LableSite(p, m, D, tab, cx, fr, name, k, mode, pc, act);
    LabelStep(m, act, rest, mem, tr);
    ReachesSelf(m, s0);
    Stepped(m, s0, s0, 0);
    assert Then(act, pc + 1, act.temps) == act.(pc := act.pc + 1);
    BareStorage(m.w, fr, fr.scope, fr.bound, D, act.temps);
  }

  lemma LableSite(p: Program, m: Machine, D: seq<nat>, tab: map<string, nat>, cx: Context, fr: S.Frame,
                  name: string, k: nat, mode: S.Mode, pc: nat, act: Act)
    requires Ready(p, m, D, tab, cx, fr, k, mode, pc, act, LowerStmt(Lable(name), cx), [name])
    ensures |LowerStmt(Lable(name), cx).code| == 1
    ensures act.pc == pc < |act.fn.code| && act.fn.code[pc].Label?
    ensures StorageOK(m.w, fr, D, act.temps)
    ensures mode == S.Start || mode == S.Seek(name)
  {
    hide Compiled, ScopeOK, StorageOK, Owns, Increasing, Allocs, AllocTemps, At, Unique, Sound, Numbered, FindLabel;
    var cx1 := Numbered(cx, name);
    NumberedSound(cx, name);
    AtIndex(act.fn.code, pc, [Label(cx1.table[name])], 0);
    FindUnique(act.fn.code, pc, cx1.table[name]);
  }

  lemma {:induction false} PlainSim(p: Program, m: Machine, D: seq<nat>, tab: map<string, nat>, cx: Context,
      fr: S.Frame, s: Stmt, k: nat, pc: nat, act: Act, rest: Stack, mem: Memory, tr: seq<Event>, fuel: nat)
    returns (T: map<nat, Word>)
    requires Calls(p, m, fuel)
    requires !s.Block? && !s.If? && !s.While? && !s.Lable?
    requires Ready(p, m, D, tab, cx, fr, k, S.Start, pc, act, LowerStmt(s, cx), Labels(s))
    ensures Follows(m, act, rest, mem, tr, pc + |LowerStmt(s, cx).code|,
                    S.ExecPlain(p, m.w, fr, s, k, mem, tr, fuel), T, fr, D, tab, fuel)
  {
    hide Calls, Ready, LowerExpr, S.Eval, Follows, SetLocal, Numbered;
    match s
    case Return(e) => T := ReturnSim(p, m, D, tab, cx, fr, e, k, pc, act, rest, mem, tr, fuel);
    case Simple(e) => T := SimpleSim(p, m, D, tab, cx, fr, e, k, pc, act, rest, mem, tr, fuel);
    case Auto(name, size) => T := AutoSim(p, m, D, tab, cx, fr, name, size, k, pc, act, rest, mem, tr, fuel);
    case Goto(name) =>
      GotoSim(p, m, D, tab, cx, fr, name, k, pc, act, rest, mem, tr, fuel);
      T := act.temps;
    case Extrn(_) =>
      EmptySim(p, m, D, tab, cx, fr, k, S.Start, pc, act, rest, mem, tr, fuel);
      T := act.temps;
  }

  lemma GotoSim(p: Program, m: Machine, D: seq<nat>, tab: map<string, nat>, cx: Context, fr: S.Frame,
                name: string, k: nat, pc: nat, act: Act, rest: Stack, mem: Memory, tr: seq<Event>, fuel: nat)
    requires Ready(p, m, D, tab, cx, fr, k, S.Start, pc, act, LowerStmt(Goto(name), cx), [])
    ensures Follows(m, act, rest, mem, tr, pc + |LowerStmt(Goto(name), cx).code|,
                    S.Jumped(name, mem, tr, fr.bound), act.temps, fr, D, tab, fuel)
  {
    hide Ready, StorageOK, Reaches, Lasts, Step, LowerStmt;
    var s0 := Here(act, rest, mem, tr);
    GotoSite(p, m, D, tab, cx, fr, name, k, pc, act);
    JumpStep(m, act, rest, mem, tr, tab[name]);
    ReachesSelf(m, s0);
    Stepped(m, s0, s0, 0);
    assert Then(act, FindLabel(act.fn.code, tab[name]), act.temps) ==
           act.(pc := FindLabel(act.fn.code, tab[name]));
    BareStorage(m.w, fr, fr.scope, fr.bound, D, act.temps);
  }

  lemma GotoSite(p: Program, m: Machine, D: seq<nat>, tab: map<string, nat>, cx: Context, fr: S.Frame,
                 name: string, k: nat, pc: nat, act: Act)
    requires Ready(p, m, D, tab, cx, fr, k, S.Start, pc, act, LowerStmt(Goto(name), cx), [])
    ensures name in tab && FindLabel(act.fn.code, tab[name]) < |act.fn.code|
    ensures act.pc == pc < |act.fn.code| && act.fn.code[pc] == Jump(tab[name])
    ensures StorageOK(m.w, fr, D, act.temps)
  {
    hide Compiled, ScopeOK, StorageOK, Owns, Increasing, Allocs, AllocTemps, At, Unique, Sound, Numbered, FindLabel;
    var cx1 := Numbered(cx, name);
    NumberedSound(cx, name);
    AtIndex(act.fn.code, pc, [Jump(cx1.table[name])], 0);
  }

  /** An `auto` gives its declaration the cell that its number owns. */
  lemma AutoSim(p: Program, m: Machine, D: seq<nat>, tab: map<string, nat>, cx: Context, fr: S.Frame,
                name: string, size: nat, k: nat, pc: nat, act: Act, rest: Stack, mem: Memory,
                tr: seq<Event>, fuel: nat)
    returns (T: map<nat, Word>)
    requires Ready(p, m, D, tab, cx, fr, k, S.Start, pc, act, LowerStmt(Auto(name, size), cx), [])
    ensures Follows(m, act, rest, mem, tr, pc + |LowerStmt(Auto(name, size), cx).code|,
                    S.Next(mem, tr, fr.bound + {k}), T, fr, D, tab, fuel)
  {
    hide Compiled, ScopeOK, Reaches, Lasts, At, Fits, Owns, AllocTemps, SetLocal;
    var s0 := Here(act, rest, mem, tr);
    AutoTemp(act.fn.code, D, tab, k, pc, Auto(name, size), cx);
    AtIndex(act.fn.code, pc, [Alloc(cx.temps + 1)], 0);
    AllocStep(m, act, rest, mem, tr, cx.temps + 1);
    T := act.temps[cx.temps + 1 := m.w.lay.cell(act.fn.name, act.base, k)];
    ReachesSelf(m, s0);
    Stepped(m, s0, s0, 0);
    assert Then(act, pc + 1, T) == There(act, 1, T);
  }

  lemma {:induction false} ReturnSim(p: Program, m: Machine, D: seq<nat>, tab: map<string, nat>, cx: Context,
      fr: S.Frame, e: Expr, k: nat, pc: nat, act: Act, rest: Stack, mem: Memory, tr: seq<Event>, fuel: nat)
    returns (T: map<nat, Word>)
    requires Calls(p, m, fuel)
    requires Ready(p, m, D, tab, cx, fr, k, S.Start, pc, act, LowerStmt(Stmt.Return(e), cx), [])
    ensures Follows(m, act, rest, mem, tr, pc + |LowerStmt(Stmt.Return(e), cx).code|,
                    S.ExecPlain(p, m.w, fr, Stmt.Return(e), k, mem, tr, fuel), T, fr, D, tab, fuel)
  {
    hide Calls, Matched, Reaches, Lasts, LowerExpr, S.Eval, At, Agree, Clean, Sited, StorageOK;
    var low := LowerExpr(e, cx.scope, cx.temps);
    var cx1 := cx.(temps := low.temps);
    var tail := [Instr.Return(low.out)];
    var s0 := Here(act, rest, mem, tr);
    ExprTail(act.fn.code, D, tab, k, pc, e, cx, tail, cx1);
    T := ExprAt(p, m, D, tab, cx, fr, e, k, act, rest, mem, tr, fuel);
    var r := S.Eval(p, m.w, fr, e, mem, tr, fuel);
    if r.Ok? {
      AtIndex(act.fn.code, pc + |low.code|, tail, 0);
      Stepped(m, s0, Here(There(act, |low.code|, T), rest, r.mem, r.trace), 0);
      ReturnStep(m, There(act, |low.code|, T), rest, r.mem, r.trace, low.out);
    }
  }

  /** An expression at the start of code that goes on with `tail`. */
  lemma ExprTail(C: seq<Instr>, D: seq<nat>, tab: map<string, nat>, k: nat, pc: nat, e: Expr, cx: Context,
                 tail: seq<Instr>, cx2: Context)
    requires LowerExpr(e, cx.scope, cx.temps).Low?
    requires
      var low := LowerExpr(e, cx.scope, cx.temps);
      var cx1 := cx.(temps := low.temps);
      && Sited(C, D, tab, k, pc, low.code + tail, cx, cx2)
      && Grows(cx1, cx2) && Rising(AllocTemps(tail), cx1.temps, cx2.temps)
    ensures
      var low := LowerExpr(e, cx.scope, cx.temps);
      var cx1 := cx.(temps := low.temps);
      && Sited(C, D, tab, k, pc, low.code, cx, cx1)
      && Sited(C, D, tab, k, pc + |low.code|, tail, cx1, cx2)
      && At(C, pc + |low.code|, tail)
      && (Clean(C, pc) ==> Clean(C, pc + |low.code|))
  {
    hide LowerExpr, Fits, Owns, Increasing, Agrees, At, AllocTemps, Plain, Clean, Grows, Sound;
    var low := LowerExpr(e, cx.scope, cx.temps);
    var cx1 := cx.(temps := low.temps);
    ExprPlain(e, cx.scope, cx.temps);
    PlainAllocs(low.code);
    SoundTemps(cx, low.temps, cx.labels);
    SitedSum(C, D, tab, k, pc, low.code, tail, cx, cx1, cx2);
    if Clean(C, pc) {
      CleanOn(C, pc, low.code);
    }
  }

  lemma {:induction false} SimpleSim(p: Program, m: Machine, D: seq<nat>, tab: map<string, nat>, cx: Context,
      fr: S.Frame, e: Expr, k: nat, pc: nat, act: Act, rest: Stack, mem: Memory, tr: seq<Event>, fuel: nat)
    returns (T: map<nat, Word>)
    requires Calls(p, m, fuel)
    requires Ready(p, m, D, tab, cx, fr, k, S.Start, pc, act, LowerStmt(Simple(e), cx), [])
    ensures Follows(m, act, rest, mem, tr, pc + |LowerStmt(Simple(e), cx).code|,
                    S.ExecPlain(p, m.w, fr, Simple(e), k, mem, tr, fuel), T, fr, D, tab, fuel)
  {
    hide Calls, Matched, Reaches, Lasts, LowerExpr, S.Eval, At, Agree, Clean, Sited, StorageOK;
    var low := LowerExpr(e, cx.scope, cx.temps);
    T := ExprAt(p, m, D, tab, cx, fr, e, k, act, rest, mem, tr, fuel);
    var r := S.Eval(p, m.w, fr, e, mem, tr, fuel);
    if r.Ok? {
      BareStorage(m.w, fr, fr.scope, fr.bound, D, T);
      ExprPlain(e, cx.scope, cx.temps);
      Placed(act.fn.code, D, tab, k, pc, low.code, cx, cx.(temps := low.temps));
      CleanOn(act.fn.code, pc, low.code);
      assert Then(act, pc + |low.code|, T) == There(act, |low.code|, T);
    }
  }

  lemma Placed(C: seq<Instr>, D: seq<nat>, tab: map<string, nat>, k: nat, pc: nat, code: seq<Instr>,
               cx: Context, cx1: Context)
    requires Sited(C, D, tab, k, pc, code, cx, cx1)
    ensures At(C, pc, code)
  {
    hide At, Fits, Owns, Increasing, Agrees, Sound;
  }

  // ----- blocks, loops and branches -----

  lemma OpenBlock(p: Program, m: Machine, D: seq<nat>, tab: map<string, nat>, cx: Context, fr: S.Frame,
                  body: Stmts, k: nat, mode: S.Mode, pc: nat, act: Act)
    requires Ready(p, m, D, tab, cx, fr, k, mode, pc, act, LowerBlock(body, cx), LabelsIn(body))
    ensures
      var cxb := cx.(scope := Inner(BlockTable(body), cx.scope));
      && Ready(p, m, D, tab, cxb, S.Opened(fr), k, mode, pc, act, LowerStmts(body, cxb), LabelsIn(body))
      && LowerBlock(body, cx).Lowered? && LowerStmts(body, cxb).Lowered?
      && LowerBlock(body, cx).code == LowerStmts(body, cxb).code
      && DeclaredIn(body, cxb.scope)
  {
    hide LowerStmts, Compiled, At, Fits, Owns, Increasing, Enters, BlockTable, AllocTemps, Allocs;
    TableDeclares(body, BlockTable(body), cx.scope);
    assert ScopeOK(Inner(BlockTable(body), cx.scope), Inner(map[], fr.scope), D);
  }

  lemma {:induction false} BlockSim(p: Program, m: Machine, D: seq<nat>, tab: map<string, nat>, cx: Context,
      fr: S.Frame, body: Stmts, k: nat, mode: S.Mode, pc: nat, act: Act, rest: Stack, mem: Memory,
      tr: seq<Event>, fuel: nat)
    returns (T: map<nat, Word>)
    requires Calls(p, m, fuel)
    requires Ready(p, m, D, tab, cx, fr, k, mode, pc, act, LowerBlock(body, cx), LabelsIn(body))
    ensures Follows(m, act, rest, mem, tr, pc + |LowerBlock(body, cx).code|,
                    S.ExecAll(p, m.w, S.Opened(fr), body, k, mode, mem, tr, fuel), T, fr, D, tab, fuel)
    decreases fuel, body, 1
  {
    hide Calls, Ready, LowerStmts, LowerBlock, S.ExecAll, Does, Reaches, DeclaredIn, Clean, LabelsIn, BlockTable;
    var cxb := cx.(scope := Inner(BlockTable(body), cx.scope));
    OpenBlock(p, m, D, tab, cx, fr, body, k, mode, pc, act);
    T := StmtsSim(p, m, D, tab, cxb, S.Opened(fr), body, k, mode, pc, act, rest, mem, tr, fuel);
    var s0 := Here(act, rest, mem, tr);
    ReachesSelf(m, s0);
    DoesFrom(m, s0, s0, act, act, rest, pc + |LowerBlock(body, cx).code|,
             S.ExecAll(p, m.w, S.Opened(fr), body, k, mode, mem, tr, fuel), T, fr, S.Opened(fr), D, tab, fuel);
  }

  /** The block of `FrameSite` and what follows it. */
  lemma BlockSite(C: seq<Instr>, D: seq<nat>, tab: map<string, nat>, k: nat, pc: nat, head: seq<Instr>,
                  b: LowStmt, names: seq<string>, d: seq<Instr>, cx: Context, cxb: Context)
    requires b.Lowered? && Kept(b, names, cxb, {}) && cx.temps <= cxb.temps && cxb.table == cx.table
      && cx.labels <= cxb.labels
    requires Rising(AllocTemps(b.code), cxb.temps, b.cx.temps)
    requires AllocTemps(head) == [] && |d| == 2 && !d[0].Alloc? && !d[1].Alloc?
    requires Sited(C, D, tab, k, pc, head + b.code + d, cx, b.cx)
    ensures Sited(C, D, tab, k, pc, head, cx, cxb)
    ensures Sited(C, D, tab, k, pc + |head|, b.code, cxb, b.cx)
    ensures
      var q := pc + |head| + |b.code|;
      q + 2 <= |C| && C[q] == d[0] && C[q + 1] == d[1]
  {
    hide Sited, Rising, Kept, AllocTemps, At, Sound, Grows, Allocs;
    NoAllocs(d);
    HeadAllocs(head, b.code);
    BlockFacts(C, D, tab, k, pc, head + b.code + d, b, names, cx, cxb);
    var hb := head + b.code;
    SitedSum(C, D, tab, k, pc, hb, d, cx, b.cx, b.cx);
    SitedSum(C, D, tab, k, pc, head, b.code, cx, cxb, b.cx);
    TailSite(C, D, tab, k + |AllocTemps(hb)|, pc + |hb|, d, b.cx);
  }

  lemma TailSite(C: seq<Instr>, D: seq<nat>, tab: map<string, nat>, k: nat, pc: nat, d: seq<Instr>, cx: Context)
    requires Sited(C, D, tab, k, pc, d, cx, cx) && |d| == 2
    ensures pc + 2 <= |C| && C[pc] == d[0] && C[pc + 1] == d[1]
  {
    hide Fits, Owns, Increasing, AllocTemps, Sound, Agrees, Allocs;
    AtIndex(C, pc, d, 0);
    AtIndex(C, pc, d, 1);
  }

  lemma HeadAllocs(head: seq<Instr>, code: seq<Instr>)
    requires AllocTemps(head) == []
    ensures AllocTemps(head + code) == AllocTemps(code)
  {
    hide AllocTemps;
    AllocTempsSum(head, code);
    assert [] + AllocTemps(code) == AllocTemps(code);
  }

  lemma BlockFacts(C: seq<Instr>, D: seq<nat>, tab: map<string, nat>, k: nat, pc: nat, code: seq<Instr>,
                   b: LowStmt, names: seq<string>, cx: Context, cxb: Context)
    requires Kept(b, names, cxb, {}) && cx.temps <= cxb.temps && cxb.table == cx.table && cx.labels <= cxb.labels
    requires Rising(AllocTemps(b.code), cxb.temps, b.cx.temps)
    requires Sited(C, D, tab, k, pc, code, cx, b.cx)
    ensures Sound(cxb) && Sound(b.cx) && Grows(cxb, b.cx) && Grows(b.cx, b.cx)
    ensures Rising([], b.cx.temps, b.cx.temps) && Rising([], cx.temps, cxb.temps)
    ensures Rising(AllocTemps(b.code), cx.temps, b.cx.temps)
  {
    hide At, Fits, Owns, Increasing, AllocTemps, Defines, Closed, Sound, Grows, Agrees, Allocs;
    GrowsSelf(b.cx);
    GrowsTemps(cx, cxb);
  }

  /** The condition of `FrameSite` and the branch behind it. */
  lemma CondSite(C: seq<Instr>, D: seq<nat>, tab: map<string, nat>, k: nat, pc: nat, top: seq<Instr>,
                 e: Expr, br: Instr, inner: nat, cx: Context, cxb: Context)
    requires LowerExpr(e, cx.scope, cx.temps).Low?
    requires cxb.temps == LowerExpr(e, cx.scope, cx.temps).temps && cxb.table == cx.table
    requires cx.labels <= cxb.labels && br.Branch? && (top == [] || (|top| == 1 && top[0].Label?))
    requires Sited(C, D, tab, k, pc, top + LowerExpr(e, cx.scope, cx.temps).code + [br, Label(inner)], cx, cxb)
    ensures
      var low := LowerExpr(e, cx.scope, cx.temps);
      var q := pc + |top| + |low.code|;
      && Sited(C, D, tab, k, pc + |top|, low.code, cx, cx.(temps := low.temps))
      && q + 2 <= |C| && (top != [] ==> C[pc] == top[0])
      && C[q] == br && C[q + 1] == Label(inner)
  {
    hide LowerExpr, At, Fits, Owns, Increasing, AllocTemps, Plain, Defines, Closed, Sound, Grows, Agrees, Allocs;
    var low := LowerExpr(e, cx.scope, cx.temps);
    var cx1 := cx.(temps := low.temps);
    var two := [br, Label(inner)];
    SoundTemps(cx, low.temps, cxb.labels);
    SoundTemps(cx, low.temps, cx.labels);
    ExprPlain(e, cx.scope, cx.temps);
    PlainAllocs(low.code);
    NoAllocs(top); NoAllocs(two);
    AllocTempsSum(top, low.code);
    GrowsTemps(cx, cxb);
    GrowsSame(cx, cx1);
    GrowsSelf(cxb);
    SitedSum(C, D, tab, k, pc, top + low.code, two, cx, cxb, cxb);
    SitedSum(C, D, tab, k, pc, top, low.code, cx, cx, cxb);
    if top != [] {
      AtIndex(C, pc, top, 0);
    }
    AtIndex(C, pc + |top + low.code|, two, 0);
    AtIndex(C, pc + |top + low.code|, two, 1);
    SameTable(cxb, cx1, tab);
  }

  /** A condition and a block, with the instructions around them, at their places. */
  lemma FrameSite(C: seq<Instr>, D: seq<nat>, tab: map<string, nat>, k: nat, pc: nat, top: seq<Instr>,
                  e: Expr, br: Instr, inner: nat, b: LowStmt, names: seq<string>, d: seq<Instr>,
                  cx: Context, cxb: Context)
    requires LowerExpr(e, cx.scope, cx.temps).Low? && b.Lowered? && Kept(b, names, cxb, {})
    requires cxb.temps == LowerExpr(e, cx.scope, cx.temps).temps && cxb.table == cx.table
    requires cx.labels <= cxb.labels
    requires Rising(AllocTemps(b.code), cxb.temps, b.cx.temps)
    requires br.Branch? && |d| == 2 && !d[0].Alloc? && !d[1].Alloc?
    requires top == [] || (|top| == 1 && top[0].Label?)
    requires Sited(C, D, tab, k, pc, top + LowerExpr(e, cx.scope, cx.temps).code + [br, Label(inner)]
                                     + b.code + d, cx, b.cx)
    ensures
      var low := LowerExpr(e, cx.scope, cx.temps);
      var q := pc + |top| + |low.code|;
      && Sited(C, D, tab, k, pc + |top|, low.code, cx, cx.(temps := low.temps))
      && Sited(C, D, tab, k, q + 2, b.code, cxb, b.cx)
      && q + |b.code| + 4 <= |C|
      && (top != [] ==> C[pc] == top[0])
      && C[q] == br && C[q + 1] == Label(inner)
      && C[q + 2 + |b.code|] == d[0] && C[q + 3 + |b.code|] == d[1]
  {
    hide LowerExpr, Sited, AllocTemps, Plain, Kept, Rising;
    var low := LowerExpr(e, cx.scope, cx.temps);
    var head := top + low.code + [br, Label(inner)];
    ExprPlain(e, cx.scope, cx.temps);
    PlainAllocs(low.code);
    NoAllocs(top); NoAllocs([br, Label(inner)]);
    AllocTempsSum(top, low.code);
    AllocTempsSum(top + low.code, [br, Label(inner)]);
    BlockSite(C, D, tab, k, pc, head, b, names, d, cx, cxb);
    CondSite(C, D, tab, k, pc, top, e, br, inner, cx, cxb);
  }

  lemma GrowsTemps(cx: Context, cxb: Context)
    requires cxb.table == cx.table && cx.labels <= cxb.labels
    ensures Grows(cx, cxb)
    ensures Sound(cx) ==> Sound(cxb)
  {
  }

  lemma GrowsSame(cx: Context, cx1: Context)
    requires cx1.table == cx.table && cx.labels == cx1.labels
    ensures Grows(cx, cx1)
  {
  }

  lemma SameTable(cx: Context, cx1: Context, tab: map<string, nat>)
    requires cx.table == cx1.table
    ensures Agrees(cx, tab) <==> Agrees(cx1, tab)
  {
  }

  /** After the block of a link, the run jumps to the end of the chain. */
  lemma JumpOn(m: Machine, s: State, act: Act, rest: Stack, e: nat, id: nat, target: nat, o: S.Outcome,
               T: map<nat, Word>, fr: S.Frame, D: seq<nat>, tab: map<string, nat>, fuel: nat)
    requires Does(m, s, act, rest, e, o, T, fr, D, tab, fuel)
    requires e < |act.fn.code| && act.fn.code[e] == Jump(id)
    requires target < |act.fn.code| && act.fn.code[target] == Label(id) && Unique(act.fn.code)
    ensures Does(m, s, act, rest, target, o, T, fr, D, tab, fuel)
  {
    hide Reaches, Lasts, StorageOK, Step, Unique, FindLabel;
    if o.Next? {
      FindUnique(act.fn.code, target, id);
      var t := Here(Then(act, e, T), rest, o.mem, o.trace);
      Stepped(m, s, t, 0);
      JumpStep(m, Then(act, e, T), rest, o.mem, o.trace, id);
      assert Then(act, e, T).(pc := target) == Then(act, target, T);
    }
  }

  /** A branch taken, and the label it leads to passed. */
  lemma BranchOn(m: Machine, s: State, act: Act, rest: Stack, mem: Memory, tr: seq<Event>, t: nat, yes: nat,
                 no: nat, target: nat)
    requires Reaches(m, s, Here(act, rest, mem, tr), 0)
    requires act.pc < |act.fn.code| && act.fn.code[act.pc] == Branch(t, yes, no) && t in act.temps
    requires FindLabel(act.fn.code, yes) < |act.fn.code| && FindLabel(act.fn.code, no) < |act.fn.code|
    requires target < |act.fn.code| && Unique(act.fn.code)
    requires act.fn.code[target] == Label(if act.temps[t] != 0 then yes else no)
    ensures Reaches(m, s, Here(act.(pc := target + 1), rest, mem, tr), 0)
  {
    hide Reaches, Step, Unique, FindLabel;
    FindUnique(act.fn.code, target, if act.temps[t] != 0 then yes else no);
    BranchStep(m, act, rest, mem, tr, t, yes, no);
    Stepped(m, s, Here(act, rest, mem, tr), 0);
    LabelStep(m, act.(pc := target), rest, mem, tr);
    Stepped(m, s, Here(act.(pc := target), rest, mem, tr), 0);
  }

  /** The parts of a link: its condition, its block and the links after it. */
  ghost predicate LinkParts(cond: Expr, body: Stmts, chain: Chain, end: nat, cx: Context, low: Low, b: LowStmt,
                            l2: LowStmt)
  {
    && low.Low? && low == LowerExpr(cond, cx.scope, cx.temps)
    && b.Lowered? && b == LowerBlock(body, cx.(temps := low.temps, labels := cx.labels + 2))
    && l2.Lowered? && l2 == LowerChain(chain, end, b.cx)
  }

  function LinkCode(low: Low, b: LowStmt, n: nat, end: nat): seq<Instr>
    requires low.Low? && b.Lowered?
  {
    [] + low.code + [Branch(low.out, n + 1, n + 2), Label(n + 1)] + b.code + [Jump(end), Label(n + 2)]
  }

  lemma LowerLinkDef(cond: Expr, body: Stmts, end: nat, cx: Context)
    requires LowerLink(cond, body, end, cx).Lowered?
    ensures
      var low := LowerExpr(cond, cx.scope, cx.temps);
      low.Low? &&
      var b := LowerBlock(body, cx.(temps := low.temps, labels := cx.labels + 2));
      b.Lowered? && LowerLink(cond, body, end, cx) == Lowered(LinkCode(low, b, cx.labels, end), b.cx)
  {
    hide LowerExpr, LowerBlock;
    assert [] + LowerExpr(cond, cx.scope, cx.temps).code == LowerExpr(cond, cx.scope, cx.temps).code;
  }

  lemma LowerLinksDef(cond: Expr, body: Stmts, chain: Chain, end: nat, cx: Context)
    returns (low: Low, b: LowStmt, l2: LowStmt)
    requires LowerChain(Link(cond, body, chain), end, cx).Lowered?
    ensures LinkParts(cond, body, chain, end, cx, low, b, l2)
    ensures LowerLink(cond, body, end, cx) == Lowered(LinkCode(low, b, cx.labels, end), b.cx)
    ensures LowerChain(Link(cond, body, chain), end, cx) ==
              Lowered(LinkCode(low, b, cx.labels, end) + l2.code, l2.cx)
  {
    hide LowerExpr, LowerBlock, LowerLink, LinkCode;
    LowerLinkDef(cond, body, end, cx);
    low := LowerExpr(cond, cx.scope, cx.temps);
    b := LowerBlock(body, cx.(temps := low.temps, labels := cx.labels + 2));
    l2 := LowerChain(chain, end, b.cx);
  }

  /** The places of one link and of the links after it. */
  lemma LinkSite(C: seq<Instr>, D: seq<nat>, tab: map<string, nat>, k: nat, pc: nat, cond: Expr, body: Stmts,
                 chain: Chain, end: nat, cx: Context)
    returns (low: Low, b: LowStmt, l2: LowStmt)
    requires LowerChain(Link(cond, body, chain), end, cx).Lowered?
    requires Sited(C, D, tab, k, pc, LowerChain(Link(cond, body, chain), end, cx).code, cx,
                   LowerChain(Link(cond, body, chain), end, cx).cx)
    ensures LinkParts(cond, body, chain, end, cx, low, b, l2)
    ensures |LowerChain(Link(cond, body, chain), end, cx).code| == |low.code| + |b.code| + 4 + |l2.code|
    ensures b.cx.scope == cx.scope
    ensures Sited(C, D, tab, k, pc, low.code, cx, cx.(temps := low.temps))
    ensures Sited(C, D, tab, k, pc + |low.code| + 2, b.code, cx.(temps := low.temps, labels := cx.labels + 2), b.cx)
    ensures Sited(C, D, tab, k + AutosIn(body), pc + |low.code| + |b.code| + 4, l2.code, b.cx, l2.cx)
    ensures
      var q := pc + |low.code|;
      var e := q + 2 + |b.code|;
      var n := cx.labels;
      && e + 2 <= |C| && Unique(C)
      && C[q] == Branch(low.out, n + 1, n + 2) && C[q + 1] == Label(n + 1)
      && C[e] == Jump(end) && C[e + 1] == Label(n + 2)
      && FindLabel(C, n + 1) < |C| && FindLabel(C, n + 2) < |C|
  {
    hide LowerExpr, LowerBlock, LowerChain, LowerLink, At, Owns, Increasing, AllocTemps, Defines, Closed, Sound,
      Grows, Agrees, Allocs, Rising, Unique, FindLabel, AutosIn, AutosOf;
    low, b, l2 := LowerLinksDef(cond, body, chain, end, cx);
    var n := cx.labels;
    var cxb := cx.(temps := low.temps, labels := n + 2);
    var l1 := LowerLink(cond, body, end, cx);
    GrowsTemps(cx, cxb);
    BlockKept(body, cxb);
    BlockAllocs(body, cxb);
    LinkAllocs(cond, body, end, cx);
    ChainKept(chain, end, b.cx);
    ChainAllocs(chain, end, b.cx);
    ScopeAfterBlock(body, cxb);
    SitedSum(C, D, tab, k, pc, l1.code, l2.code, cx, b.cx, l2.cx);
    FrameSite(C, D, tab, k, pc, [], cond, Branch(low.out, n + 1, n + 2), n + 1, b, LabelsIn(body),
              [Jump(end), Label(n + 2)], cx, cxb);
    FindUnique(C, pc + |low.code| + 1, n + 1);
    FindUnique(C, pc + |low.code| + 3 + |b.code|, n + 2);
  }

  lemma {:induction false} ChainSim(p: Program, m: Machine, D: seq<nat>, tab: map<string, nat>, cx: Context,
      fr: S.Frame, links: Chain, end: nat, k: nat, mode: S.Mode, pc: nat, act: Act, rest: Stack, mem: Memory,
      tr: seq<Event>, fuel: nat)
    returns (T: map<nat, Word>)
    requires Calls(p, m, fuel)
    requires Ready(p, m, D, tab, cx, fr, k, mode, pc, act, LowerChain(links, end, cx), LabelsOf(links))
    requires
      var fin := pc + |LowerChain(links, end, cx).code|;
      fin < |act.fn.code| && act.fn.code[fin] == Label(end)
    ensures Does(m, Here(act, rest, mem, tr), act, rest, pc + |LowerChain(links, end, cx).code|,
                 S.ExecChain(p, m.w, fr, links, k, mode, mem, tr, fuel), T, fr, D, tab, fuel)
    decreases fuel, links, 2
  {
    hide Calls, Ready, LowerBlock, LowerLink, S.ExecAll, S.Eval, Does, LabelsIn;
    match links
    case NoChain =>
      EmptySim(p, m, D, tab, cx, fr, k, mode, pc, act, rest, mem, tr, fuel);
      T := act.temps;
    case Else(body) => T := BlockSim(p, m, D, tab, cx, fr, body, k, mode, pc, act, rest, mem, tr, fuel);
    case Link(cond, body, chain) =>
      if mode == S.Start {
        T := LinkStart(p, m, D, tab, cx, fr, cond, body, chain, end, k, pc, act, rest, mem, tr, fuel);
      } else if mode.target in LabelsIn(body) {
        T := LinkBody(p, m, D, tab, cx, fr, cond, body, chain, end, k, mode, pc, act, rest, mem, tr, fuel);
      } else {
        T := LinkPast(p, m, D, tab, cx, fr, cond, body, chain, end, k, mode, pc, act, rest, mem, tr, fuel);
      }
  }

  /** Into the block of a link by a jump. */
  lemma {:induction false} LinkBody(p: Program, m: Machine, D: seq<nat>, tab: map<string, nat>, cx: Context,
      fr: S.Frame, cond: Expr, body: Stmts, chain: Chain, end: nat, k: nat, mode: S.Mode, pc: nat, act: Act,
      rest: Stack, mem: Memory, tr: seq<Event>, fuel: nat)
    returns (T: map<nat, Word>)
    requires Calls(p, m, fuel) && mode.Seek? && mode.target in LabelsIn(body)
    requires Ready(p, m, D, tab, cx, fr, k, mode, pc, act, LowerChain(Link(cond, body, chain), end, cx),
                   LabelsOf(Link(cond, body, chain)))
    requires
      var fin := pc + |LowerChain(Link(cond, body, chain), end, cx).code|;
      fin < |act.fn.code| && act.fn.code[fin] == Label(end)
    ensures Does(m, Here(act, rest, mem, tr), act, rest,
                 pc + |LowerChain(Link(cond, body, chain), end, cx).code|,
                 S.ExecAll(p, m.w, S.Opened(fr), body, k, mode, mem, tr, fuel), T, fr, D, tab, fuel)
    decreases fuel, body, 2
  {
    hide Calls, Compiled, ScopeOK, StorageOK, Sited, LowerExpr, LowerBlock, LowerChain, S.ExecAll, Does, LabelsIn,
      Unique, FindLabel, Clean;
    var low, b, l2 := LinkSite(act.fn.code, D, tab, k, pc, cond, body, chain, end, cx);
    var cxb := cx.(temps := low.temps, labels := cx.labels + 2);
    var pcb := pc + |low.code| + 2;
    T := BlockSim(p, m, D, tab, cxb, fr, body, k, mode, pcb, act, rest, mem, tr, fuel);
    JumpOn(m, Here(act, rest, mem, tr), act, rest, pcb + |b.code|, end,
           pc + |LowerChain(Link(cond, body, chain), end, cx).code|,
           S.ExecAll(p, m.w, S.Opened(fr), body, k, mode, mem, tr, fuel), T, fr, D, tab, fuel);
  }

  /** Past a link, to a label in a later one. */
  lemma {:induction false} LinkPast(p: Program, m: Machine, D: seq<nat>, tab: map<string, nat>, cx: Context,
      fr: S.Frame, cond: Expr, body: Stmts, chain: Chain, end: nat, k: nat, mode: S.Mode, pc: nat, act: Act,
      rest: Stack, mem: Memory, tr: seq<Event>, fuel: nat)
    returns (T: map<nat, Word>)
    requires Calls(p, m, fuel) && mode.Seek? && mode.target !in LabelsIn(body)
    requires Ready(p, m, D, tab, cx, fr, k, mode, pc, act, LowerChain(Link(cond, body, chain), end, cx),
                   LabelsOf(Link(cond, body, chain)))
    requires
      var fin := pc + |LowerChain(Link(cond, body, chain), end, cx).code|;
      fin < |act.fn.code| && act.fn.code[fin] == Label(end)
    ensures Does(m, Here(act, rest, mem, tr), act, rest,
                 pc + |LowerChain(Link(cond, body, chain), end, cx).code|,
                 S.ExecChain(p, m.w, fr, chain, k + AutosIn(body), mode, mem, tr, fuel), T, fr, D, tab, fuel)
    decreases fuel, Link(cond, body, chain), 1
  {
    hide Calls, Compiled, ScopeOK, StorageOK, Sited, LowerExpr, LowerBlock, LowerChain, S.ExecChain, Does, LabelsIn,
      Unique, FindLabel, Clean, AutosIn;
    var low, b, l2 := LinkSite(act.fn.code, D, tab, k, pc, cond, body, chain, end, cx);
    T := ChainSim(p, m, D, tab, b.cx, fr, chain, end, k + AutosIn(body), mode,
                  pc + |low.code| + |b.code| + 4, act, rest, mem, tr, fuel);
  }

  /** A link entered at its condition. */
  lemma {:induction false} LinkStart(p: Program, m: Machine, D: seq<nat>, tab: map<string, nat>, cx: Context,
      fr: S.Frame, cond: Expr, body: Stmts, chain: Chain, end: nat, k: nat, pc: nat, act: Act,
      rest: Stack, mem: Memory, tr: seq<Event>, fuel: nat)
    returns (T: map<nat, Word>)
    requires Calls(p, m, fuel)
    requires Ready(p, m, D, tab, cx, fr, k, S.Start, pc, act, LowerChain(Link(cond, body, chain), end, cx),
                   LabelsOf(Link(cond, body, chain)))
    requires
      var fin := pc + |LowerChain(Link(cond, body, chain), end, cx).code|;
      fin < |act.fn.code| && act.fn.code[fin] == Label(end)
    ensures Does(m, Here(act, rest, mem, tr), act, rest,
                 pc + |LowerChain(Link(cond, body, chain), end, cx).code|,
                 S.ExecChain(p, m.w, fr, Link(cond, body, chain), k, S.Start, mem, tr, fuel), T, fr, D, tab, fuel)
    decreases fuel, Link(cond, body, chain), 1
  {
    hide Calls, Compiled, ScopeOK, StorageOK, Sited, LowerExpr, LowerBlock, LowerChain, S.ExecChain, S.ExecAll,
      Does, LabelsIn, LabelsOf, Unique, FindLabel, AutosIn, S.Eval, Reaches, Lasts, Agree;
    var low, b, l2 := LinkSite(act.fn.code, D, tab, k, pc, cond, body, chain, end, cx);
    ExecLinkDef(p, m.w, fr, cond, body, chain, k, mem, tr, fuel);
    var s0 := Here(act, rest, mem, tr);
    var fin := pc + |LowerChain(Link(cond, body, chain), end, cx).code|;
    var n := cx.labels;
    var cxb := cx.(temps := low.temps, labels := n + 2);
    var U := ExprAt(p, m, D, tab, cx, fr, cond, k, act, rest, mem, tr, fuel);
    var r := S.Eval(p, m.w, fr, cond, mem, tr, fuel);
    T := U;
    if r.Ok? {
      var q := pc + |low.code|;
      var a1 := There(act, |low.code|, U);
      var pc1 := if r.value != 0 then q + 2 else q + |b.code| + 4;
      BranchOn(m, s0, a1, rest, r.mem, r.trace, low.out, n + 1, n + 2, pc1 - 1);
      var act1 := Then(act, pc1, U);
      assert a1.(pc := pc1) == act1;
      var t := Here(act1, rest, r.mem, r.trace);
      if r.value != 0 {
        T := BlockSim(p, m, D, tab, cxb, fr, body, k, S.Start, pc1, act1, rest, r.mem, r.trace, fuel);
        var o := S.ExecAll(p, m.w, S.Opened(fr), body, k, S.Start, r.mem, r.trace, fuel);
        JumpOn(m, t, act1, rest, pc1 + |b.code|, end, fin, o, T, fr, D, tab, fuel);
        DoesFrom(m, s0, t, act, act1, rest, fin, o, T, fr, fr, D, tab, fuel);
      } else {
        T := ChainSim(p, m, D, tab, b.cx, fr, chain, end, k + AutosIn(body), S.Start, pc1, act1, rest, r.mem,
                      r.trace, fuel);
        var o := S.ExecChain(p, m.w, fr, chain, k + AutosIn(body), S.Start, r.mem, r.trace, fuel);
        DoesFrom(m, s0, t, act, act1, rest, fin, o, T, fr, fr, D, tab, fuel);
      }
    } else {
      DoesNot(m, s0, act, rest, |low.code|, fin, U, r, fr, D, tab, fuel);
    }
  }

  lemma ExecLinkDef(p: Program, w: World, fr: S.Frame, cond: Expr, body: Stmts, chain: Chain, k: nat,
                    mem: Memory, tr: seq<Event>, fuel: nat)
    ensures
      var r := S.Eval(p, w, fr, cond, mem, tr, fuel);
      S.ExecChain(p, w, fr, Link(cond, body, chain), k, S.Start, mem, tr, fuel) ==
        if !r.Ok? then Cut(r)
        else if r.value != 0 then S.ExecAll(p, w, S.Opened(fr), body, k, S.Start, r.mem, r.trace, fuel)
        else S.ExecChain(p, w, fr, chain, k + AutosIn(body), S.Start, r.mem, r.trace, fuel)
  {
    hide S.Eval, S.ExecAll;
  }

  /** The outcome of a statement whose expression has no value. */
  function Cut(r: S.Result): S.Outcome
    requires !r.Ok?
  {
    match r
    case Timeout(tr) => S.Expired(tr)
    case Fail(why, tr) => S.Failed(why, tr)
  }

  lemma DoesNot(m: Machine, s: State, act: Act, rest: Stack, n: nat, fin: nat, T: map<nat, Word>, r: S.Result,
                fr: S.Frame, D: seq<nat>, tab: map<string, nat>, fuel: nat)
    requires Comes(m, s, act, rest, n, T, r, fuel) && !r.Ok?
    ensures Does(m, s, act, rest, fin, Cut(r), T, fr, D, tab, fuel)
  {
    hide Reaches, Lasts;
  }

  lemma {:induction false} IfSim(p: Program, m: Machine, D: seq<nat>, tab: map<string, nat>, cx: Context,
      fr: S.Frame, links: Chain, k: nat, mode: S.Mode, pc: nat, act: Act, rest: Stack, mem: Memory,
      tr: seq<Event>, fuel: nat)
    returns (T: map<nat, Word>)
    requires Calls(p, m, fuel)
    requires Ready(p, m, D, tab, cx, fr, k, mode, pc, act, LowerIf(links, cx), LabelsOf(links))
    ensures Follows(m, act, rest, mem, tr, pc + |LowerIf(links, cx).code|,
                    S.ExecChain(p, m.w, fr, links, k, mode, mem, tr, fuel), T, fr, D, tab, fuel)
    decreases fuel, If(links), 0
  {
    hide Calls, Ready, LowerChain, S.ExecChain, Does, LabelsOf, Reaches;
    var end := cx.labels + 1;
    var cx1 := cx.(labels := end);
    var l1 := LowerChain(links, end, cx1);
    IfSite(p, m, D, tab, cx, fr, links, k, mode, pc, act);
    T := ChainSim(p, m, D, tab, cx1, fr, links, end, k, mode, pc, act, rest, mem, tr, fuel);
    PassLabel(m, Here(act, rest, mem, tr), act, rest, pc + |l1.code|,
              S.ExecChain(p, m.w, fr, links, k, mode, mem, tr, fuel), T, fr, D, tab, fuel);
  }

  lemma IfSite(p: Program, m: Machine, D: seq<nat>, tab: map<string, nat>, cx: Context, fr: S.Frame,
               links: Chain, k: nat, mode: S.Mode, pc: nat, act: Act)
    requires Ready(p, m, D, tab, cx, fr, k, mode, pc, act, LowerIf(links, cx), LabelsOf(links))
    ensures
      var end := cx.labels + 1;
      var cx1 := cx.(labels := end);
      var l1 := LowerChain(links, end, cx1);
      && Ready(p, m, D, tab, cx1, fr, k, mode, pc, act, l1, LabelsOf(links))
      && |LowerIf(links, cx).code| == |l1.code| + 1
      && pc + |l1.code| < |act.fn.code| && act.fn.code[pc + |l1.code|] == Label(end)
  {
    hide LowerChain, LowerIf, Compiled, ScopeOK, StorageOK, Sited, LabelsOf, Enters;
    IfDef(links, cx);
    IfSited(act.fn.code, D, tab, k, pc, links, cx);
  }

  lemma IfDef(links: Chain, cx: Context)
    requires LowerIf(links, cx).Lowered?
    ensures
      var l1 := LowerChain(links, cx.labels + 1, cx.(labels := cx.labels + 1));
      l1.Lowered? && LowerIf(links, cx) == Lowered(l1.code + [Label(cx.labels + 1)], l1.cx)
  {
    hide LowerChain;
  }

  lemma IfSited(C: seq<Instr>, D: seq<nat>, tab: map<string, nat>, k: nat, pc: nat, links: Chain, cx: Context)
    requires LowerChain(links, cx.labels + 1, cx.(labels := cx.labels + 1)).Lowered?
    requires
      var l1 := LowerChain(links, cx.labels + 1, cx.(labels := cx.labels + 1));
      Sited(C, D, tab, k, pc, l1.code + [Label(cx.labels + 1)], cx, l1.cx)
    ensures
      var end := cx.labels + 1;
      var cx1 := cx.(labels := end);
      var l1 := LowerChain(links, end, cx1);
      && Sited(C, D, tab, k, pc, l1.code, cx1, l1.cx)
      && pc + |l1.code| < |C| && C[pc + |l1.code|] == Label(end)
  {
    hide LowerChain, At, Fits, Owns, Increasing, AllocTemps, Defines, Closed, Sound, Grows, Agrees, Allocs,
      LabelsOf, Rising, AutosOf;
    var end := cx.labels + 1;
    var cx1 := cx.(labels := end);
    var l1 := LowerChain(links, end, cx1);
    assert Sound(cx);
    GrowsTemps(cx, cx1);
    ChainKept(links, end, cx1);
    ChainAllocs(links, end, cx1);
    OneAlloc(Label(end));
    GrowsSelf(l1.cx);
    RisingNone(l1.cx.temps, l1.cx.temps);
    SitedSum(C, D, tab, k, pc, l1.code, [Label(end)], cx, l1.cx, l1.cx);
    Placed(C, D, tab, k + |AllocTemps(l1.code)|, pc + |l1.code|, [Label(end)], l1.cx, l1.cx);
    AtIndex(C, pc + |l1.code|, [Label(end)], 0);
  }

  lemma PassLabel(m: Machine, s: State, act: Act, rest: Stack, e: nat, o: S.Outcome, T: map<nat, Word>,
                  fr: S.Frame, D: seq<nat>, tab: map<string, nat>, fuel: nat)
    requires Does(m, s, act, rest, e, o, T, fr, D, tab, fuel)
    requires e < |act.fn.code| && act.fn.code[e].Label?
    ensures Does(m, s, act, rest, e + 1, o, T, fr, D, tab, fuel)
  {
    hide Reaches, Lasts, StorageOK, Step;
    if o.Next? {
      var t := Here(Then(act, e, T), rest, o.mem, o.trace);
      LabelStep(m, Then(act, e, T), rest, o.mem, o.trace);
      Stepped(m, s, t, 0);
      assert Then(act, e, T).(pc := e + 1) == Then(act, e + 1, T);
    }
  }

  /** The parts of a loop: its condition and its block. */
  ghost predicate LoopParts(cond: Expr, body: Stmts, cx: Context, low: Low, b: LowStmt) {
    && low.Low? && low == LowerExpr(cond, cx.scope, cx.temps)
    && b.Lowered? && b == LowerBlock(body, cx.(temps := low.temps, labels := cx.labels + 3))
  }

  lemma LowerWhileDef(cond: Expr, body: Stmts, cx: Context)
    returns (low: Low, b: LowStmt)
    requires LowerWhile(cond, body, cx).Lowered?
    ensures LoopParts(cond, body, cx, low, b)
    ensures
      var n := cx.labels;
      LowerWhile(cond, body, cx) ==
        Lowered([Label(n + 1)] + low.code + [Branch(low.out, n + 2, n + 3), Label(n + 2)] + b.code
                + [Jump(n + 1), Label(n + 3)], b.cx)
  {
    hide LowerExpr, LowerBlock;
    low := LowerExpr(cond, cx.scope, cx.temps);
    b := LowerBlock(body, cx.(temps := low.temps, labels := cx.labels + 3));
  }

  lemma WhileSite(C: seq<Instr>, D: seq<nat>, tab: map<string, nat>, k: nat, pc: nat, cond: Expr, body: Stmts,
                  cx: Context)
    returns (low: Low, b: LowStmt)
    requires LowerWhile(cond, body, cx).Lowered?
    requires Sited(C, D, tab, k, pc, LowerWhile(cond, body, cx).code, cx, LowerWhile(cond, body, cx).cx)
    ensures LoopParts(cond, body, cx, low, b)
    ensures |LowerWhile(cond, body, cx).code| == |low.code| + |b.code| + 5
    ensures Sited(C, D, tab, k, pc + 1, low.code, cx, cx.(temps := low.temps))
    ensures Sited(C, D, tab, k, pc + 3 + |low.code|, b.code, cx.(temps := low.temps, labels := cx.labels + 3), b.cx)
    ensures
      var n := cx.labels;
      var q := pc + 1 + |low.code|;
      var e := q + 2 + |b.code|;
      && e + 2 <= |C| && Unique(C)
      && C[pc] == Label(n + 1) && C[q] == Branch(low.out, n + 2, n + 3) && C[q + 1] == Label(n + 2)
      && C[e] == Jump(n + 1) && C[e + 1] == Label(n + 3)
      && FindLabel(C, n + 2) < |C| && FindLabel(C, n + 3) < |C|
  {
    hide LowerExpr, LowerBlock, LowerWhile, At, Owns, Increasing, AllocTemps, Defines, Closed, Sound,
      Grows, Agrees, Allocs, Rising, Unique, FindLabel, AutosIn;
    low, b := LowerWhileDef(cond, body, cx);
    var n := cx.labels;
    var cxb := cx.(temps := low.temps, labels := n + 3);
    assert Sound(cx);
    GrowsTemps(cx, cxb);
    BlockKept(body, cxb);
    BlockAllocs(body, cxb);
    FrameSite(C, D, tab, k, pc, [Label(n + 1)], cond, Branch(low.out, n + 2, n + 3), n + 2, b, LabelsIn(body),
              [Jump(n + 1), Label(n + 3)], cx, cxb);
    FindUnique(C, pc + |low.code| + 2, n + 2);
    FindUnique(C, pc + |low.code| + 4 + |b.code|, n + 3);
  }

  lemma ExecWhileDef(p: Program, w: World, fr: S.Frame, cond: Expr, body: Stmts, k: nat, mode: S.Mode,
                     mem: Memory, tr: seq<Event>, fuel: nat)
    ensures
      var s := While(cond, body);
      var r := S.Eval(p, w, fr, cond, mem, tr, fuel);
      S.Exec(p, w, fr, s, k, mode, mem, tr, fuel) ==
        if mode.Seek? then S.Again(p, w, fr, s, k, S.ExecAll(p, w, S.Opened(fr), body, k, mode, mem, tr, fuel), fuel)
        else if !r.Ok? then Cut(r)
        else if r.value == 0 then S.Next(r.mem, r.trace, fr.bound)
        else S.Again(p, w, fr, s, k, S.ExecAll(p, w, S.Opened(fr), body, k, S.Start, r.mem, r.trace, fuel), fuel)
  {
    hide S.Eval, S.ExecAll, S.Again;
  }

  lemma ExecAgainDef(p: Program, w: World, fr: S.Frame, s: Stmt, k: nat, o: S.Outcome, fuel: nat)
    ensures S.Again(p, w, fr, s, k, o, fuel) ==
              if !o.Next? then o
              else if fuel == 0 then S.Expired(o.trace)
              else S.Exec(p, w, fr.(bound := o.bound), s, k, S.Start, o.mem, o.trace, fuel - 1)
  {
    hide S.Exec;
  }

  lemma {:induction false} WhileSim(p: Program, m: Machine, D: seq<nat>, tab: map<string, nat>, cx: Context,
      fr: S.Frame, cond: Expr, body: Stmts, k: nat, mode: S.Mode, pc: nat, act: Act, rest: Stack,
      mem: Memory, tr: seq<Event>, fuel: nat)
    returns (T: map<nat, Word>)
    requires Calls(p, m, fuel)
    requires Ready(p, m, D, tab, cx, fr, k, mode, pc, act, LowerWhile(cond, body, cx), LabelsIn(body))
    ensures Follows(m, act, rest, mem, tr, pc + |LowerWhile(cond, body, cx).code|,
                    S.Exec(p, m.w, fr, While(cond, body), k, mode, mem, tr, fuel), T, fr, D, tab, fuel)
    decreases fuel, While(cond, body), 0
  {
    hide Calls, Compiled, ScopeOK, StorageOK, Sited, LowerExpr, LowerBlock, LowerWhile, S.Exec, S.ExecAll, S.Again,
      Does, LabelsIn, Unique, FindLabel, S.Eval, Reaches, Lasts, Agree;
    if mode.Seek? {
      var low, b := WhileSite(act.fn.code, D, tab, k, pc, cond, body, cx);
      ExecWhileDef(p, m.w, fr, cond, body, k, mode, mem, tr, fuel);
      var cxb := cx.(temps := low.temps, labels := cx.labels + 3);
      var U := BlockSim(p, m, D, tab, cxb, fr, body, k, mode, pc + 3 + |low.code|, act, rest, mem, tr, fuel);
      var o := S.ExecAll(p, m.w, S.Opened(fr), body, k, mode, mem, tr, fuel);
      T := AgainSim(p, m, D, tab, cx, fr, cond, body, k, mode, pc, act, rest, Here(act, rest, mem, tr), U, o, fuel);
    } else {
      T := WhileStart(p, m, D, tab, cx, fr, cond, body, k, pc, act, rest, mem, tr, fuel);
    }
  }

  /** A loop entered at its condition. */
  lemma {:induction false} WhileStart(p: Program, m: Machine, D: seq<nat>, tab: map<string, nat>, cx: Context,
      fr: S.Frame, cond: Expr, body: Stmts, k: nat, pc: nat, act: Act, rest: Stack,
      mem: Memory, tr: seq<Event>, fuel: nat)
    returns (T: map<nat, Word>)
    requires Calls(p, m, fuel)
    requires Ready(p, m, D, tab, cx, fr, k, S.Start, pc, act, LowerWhile(cond, body, cx), LabelsIn(body))
    ensures Follows(m, act, rest, mem, tr, pc + |LowerWhile(cond, body, cx).code|,
                    S.Exec(p, m.w, fr, While(cond, body), k, S.Start, mem, tr, fuel), T, fr, D, tab, fuel)
    decreases fuel, While(cond, body), 0, 1
  {
    hide Calls, Compiled, ScopeOK, StorageOK, Sited, LowerExpr, LowerBlock, LowerWhile, S.Exec, S.ExecAll, S.Again,
      Does, LabelsIn, Unique, FindLabel, S.Eval, Reaches, Lasts, Agree;
    var low, b := WhileSite(act.fn.code, D, tab, k, pc, cond, body, cx);
    ExecWhileDef(p, m.w, fr, cond, body, k, S.Start, mem, tr, fuel);
    var s0 := Here(act, rest, mem, tr);
    var n := cx.labels;
    var cxb := cx.(temps := low.temps, labels := n + 3);
    var q := pc + 1 + |low.code|;
    var end := q + 4 + |b.code|;
    T := LoopCondition(p, m, D, tab, cx, fr, cond, k, pc, act, rest, mem, tr, fuel);
    var r := S.Eval(p, m.w, fr, cond, mem, tr, fuel);
    if !r.Ok? {
      DoesNot(m, s0, act, rest, |low.code| + 1, end, T, r, fr, D, tab, fuel);
    } else {
      var pc1 := if r.value != 0 then q + 2 else end;
      var a1 := There(act, |low.code| + 1, T);
      BranchOn(m, s0, a1, rest, r.mem, r.trace, low.out, n + 2, n + 3, pc1 - 1);
      var act1 := Then(act, pc1, T);
      assert a1.(pc := pc1) == act1;
      if r.value != 0 {
        var V := BlockSim(p, m, D, tab, cxb, fr, body, k, S.Start, q + 2, act1, rest, r.mem, r.trace, fuel);
        var o := S.ExecAll(p, m.w, S.Opened(fr), body, k, S.Start, r.mem, r.trace, fuel);
        DoesFrom(m, s0, Here(act1, rest, r.mem, r.trace), act, act1, rest, q + 2 + |b.code|, o, V, fr, fr, D, tab,
                 fuel);
        T := AgainSim(p, m, D, tab, cx, fr, cond, body, k, S.Start, pc, act, rest, s0, V, o, fuel);
      } else {
        LeaveLoop(m, s0, act, rest, end, r, T, fr, D, tab, fuel);
      }
    }
  }

  /** The label of a loop and its condition. */
  lemma {:induction false} LoopCondition(p: Program, m: Machine, D: seq<nat>, tab: map<string, nat>, cx: Context,
      fr: S.Frame, cond: Expr, k: nat, pc: nat, act: Act, rest: Stack, mem: Memory, tr: seq<Event>, fuel: nat)
    returns (T: map<nat, Word>)
    requires Calls(p, m, fuel) && LowerExpr(cond, cx.scope, cx.temps).Low?
    requires Matched(p, m, cx.scope, fr, D, act) && act.pc == pc
    requires pc < |act.fn.code| && act.fn.code[pc].Label?
    requires
      var low := LowerExpr(cond, cx.scope, cx.temps);
      Sited(act.fn.code, D, tab, k, pc + 1, low.code, cx, cx.(temps := low.temps))
    ensures
      var low := LowerExpr(cond, cx.scope, cx.temps);
      var r := S.Eval(p, m.w, fr, cond, mem, tr, fuel);
      && Comes(m, Here(act, rest, mem, tr), act, rest, |low.code| + 1, T, r, fuel)
      && (r.Ok? ==> StorageOK(m.w, fr, D, T) && low.out in T && T[low.out] == r.value)
  {
    hide Calls, Compiled, ScopeOK, StorageOK, Sited, LowerExpr, S.Eval, Reaches, Lasts, Agree, Step;
    var s0 := Here(act, rest, mem, tr);
    var low := LowerExpr(cond, cx.scope, cx.temps);
    LabelStep(m, act, rest, mem, tr);
    ReachesSelf(m, s0);
    Stepped(m, s0, s0, 0);
    var act0 := Then(act, pc + 1, act.temps);
    assert act.(pc := act.pc + 1) == act0;
    T := ExprAt(p, m, D, tab, cx, fr, cond, k, act0, rest, mem, tr, fuel);
    Prepend(m, s0, Here(act0, rest, mem, tr), act0, rest, |low.code|, T, S.Eval(p, m.w, fr, cond, mem, tr, fuel),
            fuel, act, |low.code| + 1);
  }

  lemma LeaveLoop(m: Machine, s: State, act: Act, rest: Stack, end: nat, r: S.Result, T: map<nat, Word>,
                  fr: S.Frame, D: seq<nat>, tab: map<string, nat>, fuel: nat)
    requires r.Ok? && Reaches(m, s, Here(Then(act, end, T), rest, r.mem, r.trace), 0)
    requires StorageOK(m.w, fr, D, T)
    ensures Does(m, s, act, rest, end, S.Next(r.mem, r.trace, fr.bound), T, fr, D, tab, fuel)
  {
    hide Reaches;
    BareStorage(m.w, fr, fr.scope, fr.bound, D, T);
  }

  /** From the end of a round of the loop: the jump back, and the rest on less fuel. */
  lemma {:induction false} AgainSim(p: Program, m: Machine, D: seq<nat>, tab: map<string, nat>, cx: Context,
      fr: S.Frame, cond: Expr, body: Stmts, k: nat, mode: S.Mode, pc: nat, act: Act, rest: Stack,
      s: State, U: map<nat, Word>, o: S.Outcome, fuel: nat)
    returns (T: map<nat, Word>)
    requires Calls(p, m, fuel)
    requires Ready(p, m, D, tab, cx, fr, k, mode, pc, act, LowerWhile(cond, body, cx), LabelsIn(body))
    requires
      var low := LowerExpr(cond, cx.scope, cx.temps);
      low.Low? &&
      var b := LowerBlock(body, cx.(temps := low.temps, labels := cx.labels + 3));
      b.Lowered? && Does(m, s, act, rest, pc + 3 + |low.code| + |b.code|, o, U, fr, D, tab, fuel)
    ensures
      var end := pc + |LowerWhile(cond, body, cx).code|;
      && Does(m, s, act, rest, end, S.Again(p, m.w, fr, While(cond, body), k, o, fuel), T, fr, D, tab, fuel)
      && (S.Again(p, m.w, fr, While(cond, body), k, o, fuel).Next? ==> Clean(act.fn.code, end))
    decreases fuel, While(cond, body), 0, 0
  {
    hide Calls, Compiled, ScopeOK, StorageOK, Sited, LowerExpr, LowerBlock, LowerWhile, S.Exec, S.ExecAll, S.Again,
      Does, LabelsIn, Unique, FindLabel, S.Eval, Reaches, Lasts, Agree;
    var low, b := WhileSite(act.fn.code, D, tab, k, pc, cond, body, cx);
    ExecAgainDef(p, m.w, fr, While(cond, body), k, o, fuel);
    var e := pc + 3 + |low.code| + |b.code|;
    var end := pc + |LowerWhile(cond, body, cx).code|;
    T := U;
    if !o.Next? {
      DoesElsewhere(m, s, act, rest, e, end, o, U, fr, D, tab, fuel);
    } else {
      DoesNext(m, s, act, rest, e, o, U, fr, D, tab, fuel);
      var t := Here(Then(act, e, U), rest, o.mem, o.trace);
      FindUnique(act.fn.code, pc, cx.labels + 1);
      JumpStep(m, Then(act, e, U), rest, o.mem, o.trace, cx.labels + 1);
      Stepped(m, s, t, 0);
      var act1 := Then(act, pc, U);
      var t1 := Here(act1, rest, o.mem, o.trace);
      assert Then(act, e, U).(pc := pc) == act1;
      if fuel == 0 {
        LastsNow(m, s, t, act, rest, end, U, fr, D, tab);
      } else {
        Restart(p, m, D, tab, cx, fr, cond, body, k, mode, pc, act, o.bound, U);
        T := WhileSim(p, m, D, tab, cx, fr.(bound := o.bound), cond, body, k, S.Start, pc, act1, rest, o.mem,
                      o.trace, fuel - 1) by { FewerCalls(p, m, fuel); }
        DoesMore(m, s, t1, act, act1, rest, end,
                 S.Exec(p, m.w, fr.(bound := o.bound), While(cond, body), k, S.Start, o.mem, o.trace, fuel - 1),
                 T, fr, fr.(bound := o.bound), D, tab, fuel);
      }
    }
  }

  lemma LastsNow(m: Machine, s: State, t: State, act: Act, rest: Stack, end: nat, T: map<nat, Word>,
                 fr: S.Frame, D: seq<nat>, tab: map<string, nat>)
    requires t.Running? && Reaches(m, s, t, 0)
    ensures Does(m, s, act, rest, end, S.Expired(t.trace), T, fr, D, tab, 0)
  {
    hide Reaches;
  }

  lemma FewerCalls(p: Program, m: Machine, fuel: nat)
    requires Calls(p, m, fuel) && fuel > 0
    ensures Calls(p, m, fuel - 1)
  {
    hide Entering;
  }

  /** As `DoesFrom`, when a step was made for the fuel spent. */
  lemma DoesMore(m: Machine, s: State, t: State, act: Act, act1: Act, rest: Stack, end: nat, o: S.Outcome,
                 T: map<nat, Word>, fr: S.Frame, fr1: S.Frame, D: seq<nat>, tab: map<string, nat>, fuel: nat)
    requires fuel > 0 && Reaches(m, s, t, 1) && Does(m, t, act1, rest, end, o, T, fr1, D, tab, fuel - 1)
    requires act1.fn == act.fn && act1.base == act.base && fr1.fn == fr.fn && fr1.base == fr.base
    ensures Does(m, s, act, rest, end, o, T, fr, D, tab, fuel)
  {
    hide Reaches, Lasts, StorageOK;
    match o
    case Expired(tr) => LastsTrans(m, s, t, tr, 1, fuel - 1);
    case Next(mem, tr, bound) => ReachesOn(m, s, t, Here(Then(act, end, T), rest, mem, tr), 0);
    case Jumped(x, mem, tr, bound) =>
      ReachesOn(m, s, t, Here(Then(act, FindLabel(act.fn.code, tab[x]), T), rest, mem, tr), 1);
    case Returned(v, mem, tr) => ReachesOn(m, s, t, Leaves(m, act, rest, v, mem, tr), 0);
    case Failed(why, tr) => ReachesOn(m, s, t, Faulted(why, tr), 0);
  }

  lemma ReachesOn(m: Machine, s: State, t: State, u: State, n: nat)
    requires Reaches(m, s, t, 1) && Reaches(m, t, u, n)
    ensures Reaches(m, s, u, n)
  {
    hide Reaches;
    ReachesTrans(m, s, t, u, 1, n);
    ReachesWeaken(m, s, u, 1 + n, n);
  }

  lemma Restart(p: Program, m: Machine, D: seq<nat>, tab: map<string, nat>, cx: Context, fr: S.Frame,
                cond: Expr, body: Stmts, k: nat, mode: S.Mode, pc: nat, act: Act, bound: set<nat>,
                U: map<nat, Word>)
    requires Ready(p, m, D, tab, cx, fr, k, mode, pc, act, LowerWhile(cond, body, cx), LabelsIn(body))
    requires StorageOK(m.w, Bare(fr, bound), D, U)
    ensures Ready(p, m, D, tab, cx, fr.(bound := bound), k, S.Start, pc, Then(act, pc, U),
                  LowerWhile(cond, body, cx), LabelsIn(body))
  {
    hide LowerWhile, Compiled, ScopeOK, StorageOK, Sited, LabelsIn;
    var _, _ := WhileSite(act.fn.code, D, tab, k, pc, cond, body, cx);
    BareStorage(m.w, fr, fr.scope, bound, D, U);
  }
}
