/** Without `goto`, no run uses a variable before its declaration has been executed. */
module DefiniteAssignment {
  import opened Words
  import opened Ast
  import opened Scopes
  import opened Source
  import Tok = Tokens
  import I = Ir

  predicate NoGoto(s: Stmt) {
    match s
    case Goto(_) => false
    case Block(body) => NoGotoIn(body)
    case While(_, body) => NoGotoIn(body)
    case If(links) => NoGotoOf(links)
    case _ => true
  }

  predicate NoGotoOf(c: Chain) {
    match c
    case NoChain => true
    case Link(_, body, chain) => NoGotoIn(body) && NoGotoOf(chain)
    case Else(body) => NoGotoIn(body)
  }

  predicate NoGotoIn(ss: Stmts) {
    match ss
    case NoStmts => true
    case MoreStmts(s, next) => NoGoto(s) && NoGotoIn(next)
  }

  predicate GotoFree(p: Program) {
    forall i :: 0 <= i < |p.fns| ==> NoGotoIn(p.fns[i].body)
  }

  /** Every variable in scope has storage. */
  ghost predicate Covered(fr: Frame) {
    forall x: string :: Lookup(fr.scope, x).Local? ==> Lookup(fr.scope, x).n in fr.bound
  }

  predicate Fine(r: Result) {
    r.Fail? ==> r.why != I.Unset
  }

  predicate FineArgs(r: Results) {
    r.Stops? ==> Fine(r.at)
  }

  /** The outcome of a statement entered with `bound` declarations executed. */
  predicate FineOut(o: Outcome, bound: set<nat>) {
    match o
    case Next(_, _, b) => bound <= b
    case Jumped(_, _, _, _) => false
    case Failed(why, _) => why != I.Unset
    case _ => true
  }

  lemma VarFine(w: I.World, fr: Frame, name: string)
    requires Covered(fr)
    ensures VarAddress(w, fr, name) != I.Bad(I.Unset)
  {
  }

  lemma {:induction false} EvalFine(p: Program, w: I.World, fr: Frame, e: Expr, mem: I.Memory, tr: seq<I.Event>,
                                    fuel: nat)
    requires GotoFree(p) && Covered(fr)
    ensures Fine(Eval(p, w, fr, e, mem, tr, fuel))
    decreases fuel, 1, e, 1
  {
    hide Covered, GotoFree, EvalAssign, EvalBinary, EvalCall, EvalDeref, EvalNeg, EvalNot, Bump, EvalAddress,
      VarAddress;
    match e
    case Atom(kind, value, n) => VarFine(w, fr, value);
    case Unary(op, x) => UnaryFine(p, w, fr, op, x, mem, tr, fuel);
    case Binary(l, op, r) =>
      if op == Tok.Assign {
        AssignFine(p, w, fr, l, r, mem, tr, fuel);
      } else {
        BinaryFine(p, w, fr, l, op, r, mem, tr, fuel);
      }
    case FunctionCall(name, args) => CallFine(p, w, fr, name, args, mem, tr, fuel);
  }

  lemma {:induction false} UnaryFine(p: Program, w: I.World, fr: Frame, op: Tok.Kind, x: Expr, mem: I.Memory,
                                     tr: seq<I.Event>, fuel: nat)
    requires GotoFree(p) && Covered(fr)
    ensures Fine(Eval(p, w, fr, Unary(op, x), mem, tr, fuel))
    decreases fuel, 1, x, 3
  {
    hide Covered, GotoFree, EvalAddress;
    EvalFine(p, w, fr, x, mem, tr, fuel);
    AddressFine(p, w, fr, x, mem, tr, fuel);
  }

  lemma {:induction false} AssignFine(p: Program, w: I.World, fr: Frame, l: Expr, r: Expr, mem: I.Memory,
                                      tr: seq<I.Event>, fuel: nat)
    requires GotoFree(p) && Covered(fr)
    ensures Fine(EvalAssign(p, w, fr, l, r, mem, tr, fuel))
    decreases fuel, 1, Binary(l, Tok.Assign, r), 0
  {
    hide Covered, GotoFree, EvalAddress, Eval;
    EvalFine(p, w, fr, r, mem, tr, fuel);
    var q := Eval(p, w, fr, r, mem, tr, fuel);
    if q.Ok? {
      AddressFine(p, w, fr, l, q.mem, q.trace, fuel);
    }
  }

  lemma {:induction false} BinaryFine(p: Program, w: I.World, fr: Frame, l: Expr, op: Tok.Kind, r: Expr, mem: I.Memory,
                                      tr: seq<I.Event>, fuel: nat)
    requires GotoFree(p) && Covered(fr)
    ensures Fine(EvalBinary(p, w, fr, l, op, r, mem, tr, fuel))
    decreases fuel, 1, Binary(l, op, r), 0
  {
    hide Covered, GotoFree, Eval, Apply, OperatorOf;
    EvalFine(p, w, fr, l, mem, tr, fuel);
    var q := Eval(p, w, fr, l, mem, tr, fuel);
    if q.Ok? {
      EvalFine(p, w, fr, r, q.mem, q.trace, fuel);
    }
  }

  lemma {:induction false} AddressFine(p: Program, w: I.World, fr: Frame, e: Expr, mem: I.Memory, tr: seq<I.Event>,
                                       fuel: nat)
    requires GotoFree(p) && Covered(fr)
    ensures Fine(EvalAddress(p, w, fr, e, mem, tr, fuel))
    decreases fuel, 1, e, 1
  {
    hide Covered, GotoFree, Eval, VarAddress;
    match e
    case Atom(_, name, _) => VarFine(w, fr, name);
    case Unary(_, x) => EvalFine(p, w, fr, x, mem, tr, fuel);
    case _ =>
  }

  lemma {:induction false} ArgsFine(p: Program, w: I.World, fr: Frame, args: Exprs, mem: I.Memory, tr: seq<I.Event>,
                                    fuel: nat)
    requires GotoFree(p) && Covered(fr)
    ensures FineArgs(EvalArgs(p, w, fr, args, mem, tr, fuel))
    decreases fuel, 1, args, 1
  {
    hide Covered, GotoFree, Eval;
    match args
    case NoExprs =>
    case MoreExprs(e, next) =>
      EvalFine(p, w, fr, e, mem, tr, fuel);
      var q := Eval(p, w, fr, e, mem, tr, fuel);
      if q.Ok? {
        ArgsFine(p, w, fr, next, q.mem, q.trace, fuel);
      }
  }

  lemma {:induction false} CallFine(p: Program, w: I.World, fr: Frame, name: string, args: Exprs, mem: I.Memory,
                                    tr: seq<I.Event>, fuel: nat)
    requires GotoFree(p) && Covered(fr)
    ensures Fine(EvalCall(p, w, fr, name, args, mem, tr, fuel))
    decreases fuel, 1, args, 2
  {
    hide Covered, GotoFree, EvalArgs, Invoke;
    ArgsFine(p, w, fr, args, mem, tr, fuel);
    var q := EvalArgs(p, w, fr, args, mem, tr, fuel);
    if q.Oks? {
      InvokeFine(p, w, fr.fn, fr.base, name, q.values, q.mem, q.trace, fuel);
    }
  }

  lemma {:induction false} InvokeFine(p: Program, w: I.World, fn: string, base: Word, name: string, args: seq<Word>,
                                      mem: I.Memory, tr: seq<I.Event>, fuel: nat)
    requires GotoFree(p)
    ensures Fine(Invoke(p, w, fn, base, name, args, mem, tr, fuel))
    decreases fuel, 0
  {
    hide GotoFree, Enter;
    var i := FindFunction(p.fns, name);
    if i >= 0 && fuel > 0 && w.lay.enter(fn, base, name, |args|).Some? && |args| == |p.fns[i].params| {
      EnterFine(p, w, i, w.lay.enter(fn, base, name, |args|).value, args, mem, tr, fuel - 1);
    }
  }

  lemma {:induction false} EnterFine(p: Program, w: I.World, i: nat, base: Word, args: seq<Word>, mem: I.Memory,
                                     tr: seq<I.Event>, fuel: nat)
    requires GotoFree(p) && i < |p.fns|
    ensures Fine(Enter(p, w, p.fns[i], base, args, mem, tr, fuel))
    decreases fuel, 4
  {
    hide RunBody, Covered, StoreArgs, I.CellSet, FirstFrame;
    var f := p.fns[i];
    FirstCovered(p, f, base);
    var mem0 := StoreArgs(w, f.name, base, args, I.Allocate(mem, I.CellSet(w, f.name, base, Cells(f))));
    BodyFine(p, w, f, FirstFrame(p, f, base), mem0, tr, fuel);
  }

  lemma FirstCovered(p: Program, f: Function, base: Word)
    ensures Covered(FirstFrame(p, f, base))
  {
    forall x: string | Lookup(FirstScope(p, f), x).Local?
      ensures Lookup(FirstScope(p, f), x).n in Numbers(|f.params|)
    {
      var params := Inner(ParamTable(f.params), Globals(p.globals.Keys));
      assert Lookup(FirstScope(p, f), x) == Lookup(params, x);
      assert x !in ParamTable(f.params) ==> Lookup(params, x) == Lookup(Globals(p.globals.Keys), x);
      ParamBound(f.params, x);
    }
  }

  lemma {:induction false} ParamBound(params: seq<string>, x: string)
    ensures x in ParamTable(params) ==> ParamTable(params)[x] < |params|
    decreases |params|
  {
    if params != [] {
      ParamBound(params[..|params| - 1], x);
    }
  }

  lemma {:induction false} BodyFine(p: Program, w: I.World, f: Function, fr: Frame, mem: I.Memory, tr: seq<I.Event>,
                                    fuel: nat)
    requires GotoFree(p) && Covered(fr) && NoGotoIn(f.body)
    ensures FineOut(RunBody(p, w, f, fr, Start, mem, tr, fuel), {})
    decreases fuel, 3
  {
    hide Covered, GotoFree, ExecAll, NoGotoIn;
    AllFine(p, w, fr, f.body, |f.params|, mem, tr, fuel);
  }

  // ----- statements -----

  lemma MoreCovered(fr: Frame, bound: set<nat>)
    requires Covered(fr) && fr.bound <= bound
    ensures Covered(fr.(bound := bound))
  {
  }

  lemma OpenedCovered(fr: Frame)
    requires Covered(fr)
    ensures Covered(Opened(fr))
  {
    forall x: string | Lookup(Opened(fr).scope, x).Local?
      ensures Lookup(Opened(fr).scope, x).n in fr.bound
    {
      assert Lookup(Opened(fr).scope, x) == Lookup(fr.scope, x);
    }
  }

  /** A declaration that has been executed covers its name. */
  lemma AfterCovered(fr: Frame, s: Stmt, k: nat, bound: set<nat>)
    requires Covered(fr) && fr.bound <= bound && (s.Auto? ==> k in bound)
    ensures Covered(After(fr, s, k).(bound := bound))
  {
    var g := After(fr, s, k);
    forall x: string | Lookup(g.scope, x).Local?
      ensures Lookup(g.scope, x).n in bound
    {
      if s.Auto? && fr.scope.Inner? && x == s.name {
        assert Lookup(g.scope, x).n == k;
      } else {
        assert Lookup(g.scope, x) == Lookup(fr.scope, x);
      }
    }
  }

  lemma {:induction false} ExecFine(p: Program, w: I.World, fr: Frame, s: Stmt, k: nat, mem: I.Memory, tr: seq<I.Event>,
                                    fuel: nat)
    requires GotoFree(p) && Covered(fr) && NoGoto(s)
    ensures FineOut(Exec(p, w, fr, s, k, Start, mem, tr, fuel), fr.bound)
    ensures s.Auto? && Exec(p, w, fr, s, k, Start, mem, tr, fuel).Next? ==>
              k in Exec(p, w, fr, s, k, Start, mem, tr, fuel).bound
    decreases fuel, 2, s
  {
    hide Covered, GotoFree, ExecAll, ExecChain, Eval, Again, Opened;
    match s
    case Block(body) =>
      OpenedCovered(fr);
      AllFine(p, w, Opened(fr), body, k, mem, tr, fuel);
      OpenedBound(fr);
    case If(links) => ChainFine(p, w, fr, links, k, mem, tr, fuel);
    case While(cond, body) => WhileFine(p, w, fr, s, k, mem, tr, fuel);
    case Return(e) => EvalFine(p, w, fr, e, mem, tr, fuel);
    case Simple(e) => EvalFine(p, w, fr, e, mem, tr, fuel);
    case _ =>
  }

  lemma OpenedBound(fr: Frame)
    ensures Opened(fr).bound == fr.bound
  {
  }

  lemma {:induction false} WhileFine(p: Program, w: I.World, fr: Frame, s: Stmt, k: nat, mem: I.Memory,
                                     tr: seq<I.Event>,
                                     fuel: nat)
    requires GotoFree(p) && Covered(fr) && s.While? && NoGotoIn(s.body)
    ensures FineOut(Exec(p, w, fr, s, k, Start, mem, tr, fuel), fr.bound)
    decreases fuel, 2, s, 0
  {
    hide Covered, GotoFree, ExecAll, Eval, Opened, NoGotoIn;
    EvalFine(p, w, fr, s.cond, mem, tr, fuel);
    var q := Eval(p, w, fr, s.cond, mem, tr, fuel);
    if q.Ok? && q.value != 0 {
      OpenedCovered(fr);
      OpenedBound(fr);
      AllFine(p, w, Opened(fr), s.body, k, q.mem, q.trace, fuel);
      var o := ExecAll(p, w, Opened(fr), s.body, k, Start, q.mem, q.trace, fuel);
      if o.Next? && fuel > 0 {
        MoreCovered(fr, o.bound);
        ExecFine(p, w, fr.(bound := o.bound), s, k, o.mem, o.trace, fuel - 1);
      }
    }
  }

  lemma {:induction false} ChainFine(p: Program, w: I.World, fr: Frame, c: Chain, k: nat, mem: I.Memory,
                                     tr: seq<I.Event>, fuel: nat)
    requires GotoFree(p) && Covered(fr) && NoGotoOf(c)
    ensures FineOut(ExecChain(p, w, fr, c, k, Start, mem, tr, fuel), fr.bound)
    decreases fuel, 2, c
  {
    hide Covered, GotoFree, ExecAll, Eval, Opened, NoGotoIn;
    OpenedCovered(fr);
    OpenedBound(fr);
    match c
    case NoChain =>
    case Else(body) => AllFine(p, w, Opened(fr), body, k, mem, tr, fuel);
    case Link(cond, body, chain) =>
      EvalFine(p, w, fr, cond, mem, tr, fuel);
      var q := Eval(p, w, fr, cond, mem, tr, fuel);
      if q.Ok? {
        if q.value != 0 {
          AllFine(p, w, Opened(fr), body, k, q.mem, q.trace, fuel);
        } else {
          ChainFine(p, w, fr, chain, k + AutosIn(body), q.mem, q.trace, fuel);
        }
      }
  }

  lemma {:induction false} AllFine(p: Program, w: I.World, fr: Frame, ss: Stmts, k: nat, mem: I.Memory,
                                   tr: seq<I.Event>,
                                   fuel: nat)
    requires GotoFree(p) && Covered(fr) && NoGotoIn(ss)
    ensures FineOut(ExecAll(p, w, fr, ss, k, Start, mem, tr, fuel), fr.bound)
    decreases fuel, 2, ss
  {
    hide Covered, GotoFree, Exec, After, NoGoto;
    match ss
    case NoStmts =>
    case MoreStmts(s, next) =>
      ExecFine(p, w, fr, s, k, mem, tr, fuel);
      var o := Exec(p, w, fr, s, k, Start, mem, tr, fuel);
      if o.Next? {
        AfterCovered(fr, s, k, o.bound);
        AllFine(p, w, After(fr, s, k).(bound := o.bound), next, k + Autos(s), o.mem, o.trace, fuel);
      }
  }
}
