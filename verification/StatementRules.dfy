/** The rules of statements: choices, loops and jumps. */
module StatementRules {
  import opened Words
  import opened Ast
  import opened Source
  import GA = GlobalArrays
  import Sc = Scopes
  import Rules
  import Programs
  import Tok = Tokens
  import I = Ir

  /** `if`: the first body where the condition is not 0, and otherwise what follows it: another `if`,
      the body of an `else`, or nothing. */
  lemma IfChooses(p: Program, w: I.World, fr: Frame, cond: Expr, body: Stmts, chain: Chain, k: nat, mem: I.Memory,
                  tr: seq<I.Event>, fuel: nat)
    ensures
      var q := Eval(p, w, fr, cond, mem, tr, fuel);
      q.Ok? ==>
        Exec(p, w, fr, Stmt.If(Link(cond, body, chain)), k, Start, mem, tr, fuel)
        == if q.value != 0 then Exec(p, w, fr, Block(body), k, Start, q.mem, q.trace, fuel)
           else if chain.NoChain? then Next(q.mem, q.trace, fr.bound)
           else if chain.Else? then Exec(p, w, fr, Block(chain.body), k + AutosIn(body), Start, q.mem, q.trace, fuel)
           else Exec(p, w, fr, Stmt.If(chain), k + AutosIn(body), Start, q.mem, q.trace, fuel)
  {
    hide Eval, ExecAll, Exec;
    var q := Eval(p, w, fr, cond, mem, tr, fuel);
    IfUnfolds(p, w, fr, Link(cond, body, chain), k, mem, tr, fuel);
    if q.Ok? {
      var j := k + AutosIn(body);
      BlockUnfolds(p, w, fr, body, k, q.mem, q.trace, fuel);
      if q.value == 0 && chain.Else? {
        BlockUnfolds(p, w, fr, chain.body, j, q.mem, q.trace, fuel);
      } else if q.value == 0 && chain.Link? {
        IfUnfolds(p, w, fr, chain, j, q.mem, q.trace, fuel);
      }
    }
  }

  lemma BlockUnfolds(p: Program, w: I.World, fr: Frame, body: Stmts, k: nat, mem: I.Memory, tr: seq<I.Event>,
                     fuel: nat)
    ensures Exec(p, w, fr, Block(body), k, Start, mem, tr, fuel)
            == ExecAll(p, w, Opened(fr), body, k, Start, mem, tr, fuel)
  {
    hide ExecAll;
  }

  lemma IfUnfolds(p: Program, w: I.World, fr: Frame, links: Chain, k: nat, mem: I.Memory, tr: seq<I.Event>, fuel: nat)
    ensures Exec(p, w, fr, Stmt.If(links), k, Start, mem, tr, fuel)
            == ExecChain(p, w, fr, links, k, Start, mem, tr, fuel)
  {
    hide ExecChain;
  }

  /** `while`: nothing where the condition is 0; otherwise the body, and behind it the loop again. */
  lemma WhileRepeats(p: Program, w: I.World, fr: Frame, cond: Expr, body: Stmts, k: nat, mem: I.Memory,
                     tr: seq<I.Event>, fuel: nat)
    requires fuel > 0
    ensures
      var loop := Stmt.While(cond, body);
      var q := Eval(p, w, fr, cond, mem, tr, fuel);
      q.Ok? ==>
        && (q.value == 0 ==> Exec(p, w, fr, loop, k, Start, mem, tr, fuel) == Next(q.mem, q.trace, fr.bound))
        && (q.value != 0 ==>
              var o := Exec(p, w, fr, Block(body), k, Start, q.mem, q.trace, fuel);
              Exec(p, w, fr, loop, k, Start, mem, tr, fuel)
              == if o.Next? then Exec(p, w, fr.(bound := o.bound), loop, k, Start, o.mem, o.trace, fuel - 1) else o)
  {
    hide Eval, ExecAll;
    var loop := Stmt.While(cond, body);
    var q := Eval(p, w, fr, cond, mem, tr, fuel);
    if q.Ok? && q.value != 0 {
      var o := ExecAll(p, w, Opened(fr), body, k, Start, q.mem, q.trace, fuel);
      BlockUnfolds(p, w, fr, body, k, q.mem, q.trace, fuel);
      assert Exec(p, w, fr, loop, k, Start, mem, tr, fuel) == Again(p, w, fr, loop, k, o, fuel);
    }
  }

  // ----- jumps -----

  /** The frame as seen by the text behind some statements. */
  function Behind(fr: Frame, ss: Stmts, k: nat): Frame
    decreases ss
  {
    match ss
    case NoStmts => fr
    case MoreStmts(s, next) => Behind(After(fr, s, k), next, k + Autos(s))
  }

  lemma {:induction false} SkipsTo(p: Program, w: I.World, fr: Frame, a: Stmts, x: string, c: Stmts, k: nat,
                                   mem: I.Memory, tr: seq<I.Event>, fuel: nat)
    requires x !in LabelsIn(a)
    ensures ExecAll(p, w, fr, Join(a, MoreStmts(Lable(x), c)), k, Seek(x), mem, tr, fuel)
            == ExecAll(p, w, Behind(fr, a, k).(bound := fr.bound), c, k + AutosIn(a), Start, mem, tr, fuel)
    decreases a
  {
    match a
    case NoStmts =>
      assert Exec(p, w, fr, Lable(x), k, Seek(x), mem, tr, fuel) == Next(mem, tr, fr.bound);
    case MoreStmts(s, next) =>
      SkipsTo(p, w, After(fr, s, k), next, x, c, k + Autos(s), mem, tr, fuel);
      KeepsBound(fr, s, k);
  }

  lemma KeepsBound(fr: Frame, s: Stmt, k: nat)
    ensures After(fr, s, k).bound == fr.bound
  {
  }

  /** A jump to a label that stands directly in the body of the function goes on with the text behind
      the label, in the scope of everything declared before it. */
  lemma GotoLands(p: Program, w: I.World, f: Function, fr: Frame, a: Stmts, x: string, c: Stmts, mode: Mode,
                  mem: I.Memory, tr: seq<I.Event>, fuel: nat)
    requires f.body == Join(a, MoreStmts(Lable(x), c)) && x !in LabelsIn(a) && fuel > 0
    ensures
      var o := ExecAll(p, w, fr, f.body, |f.params|, mode, mem, tr, fuel);
      o.Jumped? && o.target == x ==>
        var here := Behind(fr.(bound := o.bound), a, |f.params|).(bound := o.bound);
        var rest := ExecAll(p, w, here, c, |f.params| + AutosIn(a), Start, o.mem, o.trace, fuel - 1);
        && (rest.Returned? ==> RunBody(p, w, f, fr, mode, mem, tr, fuel) == rest)
        && (rest.Next? ==> RunBody(p, w, f, fr, mode, mem, tr, fuel) == Returned(0, rest.mem, rest.trace))
  {
    hide Exec, ExecAll;
    var o := ExecAll(p, w, fr, f.body, |f.params|, mode, mem, tr, fuel);
    if o.Jumped? && o.target == x {
      var fr1 := fr.(bound := o.bound);
      LabelThere(a, x, c);
      SkipsTo(p, w, fr1, a, x, c, |f.params|, o.mem, o.trace, fuel - 1);
      assert RunBody(p, w, f, fr, mode, mem, tr, fuel)
          == RunBody(p, w, f, fr1, Seek(x), o.mem, o.trace, fuel - 1);
    }
  }

  lemma {:induction false} LabelThere(a: Stmts, x: string, c: Stmts)
    ensures x in LabelsIn(Join(a, MoreStmts(Lable(x), c)))
    decreases a
  {
    if a.MoreStmts? {
      LabelThere(a.next, x, c);
    } else {
      assert Labels(Lable(x)) == [x];
    }
  }

  // ----- arrays from the start of a program -----

  function Literal(n: nat): Expr {
    Atom(Tok.IntLit, "", n)
  }

  /** `e1; return e2;` answers what e2 answers behind e1. */
  lemma ThenReturns(p: Program, w: I.World, f: Function, fr: Frame, e1: Expr, e2: Expr, mem: I.Memory,
                    tr: seq<I.Event>, fuel: nat)
    requires f.body == MoreStmts(Simple(e1), Single(Stmt.Return(e2)))
    ensures
      var q1 := Eval(p, w, fr, e1, mem, tr, fuel);
      q1.Ok? ==>
        var q2 := Eval(p, w, fr, e2, q1.mem, q1.trace, fuel);
        q2.Ok? ==> RunBody(p, w, f, fr, Start, mem, tr, fuel) == Returned(q2.value, q2.mem, q2.trace)
  {
    hide Eval;
    var q1 := Eval(p, w, fr, e1, mem, tr, fuel);
    if q1.Ok? {
      var k := |f.params|;
      assert Exec(p, w, fr, Simple(e1), k, Start, mem, tr, fuel) == ExecPlain(p, w, fr, Simple(e1), k, mem, tr, fuel)
          == Next(q1.mem, q1.trace, fr.bound);
      assert After(fr, Simple(e1), k).(bound := fr.bound) == fr && Autos(Simple(e1)) == 0;
      var rest := ExecAll(p, w, fr, Single(Stmt.Return(e2)), k, Start, q1.mem, q1.trace, fuel);
      assert ExecAll(p, w, fr, f.body, k, Start, mem, tr, fuel) == rest;
      var q2 := Eval(p, w, fr, e2, q1.mem, q1.trace, fuel);
      if q2.Ok? {
        LastReturns(p, w, fr, e2, k, q1.mem, q1.trace, fuel);
      }
    }
  }

  lemma LastReturns(p: Program, w: I.World, fr: Frame, e: Expr, k: nat, mem: I.Memory, tr: seq<I.Event>, fuel: nat)
    requires Eval(p, w, fr, e, mem, tr, fuel).Ok?
    ensures
      var q := Eval(p, w, fr, e, mem, tr, fuel);
      ExecAll(p, w, fr, Single(Stmt.Return(e)), k, Start, mem, tr, fuel) == Returned(q.value, q.mem, q.trace)
  {
    hide Eval;
    assert Exec(p, w, fr, Stmt.Return(e), k, Start, mem, tr, fuel)
        == ExecPlain(p, w, fr, Stmt.Return(e), k, mem, tr, fuel);
  }

  /** `&v[i]` at the top of a function without variables. */
  lemma ElementAddress(p: Program, w: I.World, fr: Frame, v: string, i: nat, mem: I.Memory, tr: seq<I.Event>,
                       fuel: nat)
    requires Sc.Lookup(fr.scope, v) == Sc.Global && i < TWO64
    ensures Eval(p, w, fr, Unary(Tok.BitAnd, Indexed(GA.Variable(v), Literal(i))), mem, tr, fuel)
            == Ok(Programs.ElementAt(w, v, i), mem, tr)
  {
    hide Eval, EvalAddress, Indexed;
    Rules.AddressMeans(p, w, fr, Indexed(GA.Variable(v), Literal(i)), mem, tr, fuel);
    GA.IndexAddress(p, w, fr, v, Literal(i), mem, tr, fuel);
    Rules.LiteralMeans(p, w, fr, "", i, mem, tr, fuel);
  }

  /** A function without variables owns no cells. */
  lemma NoCells(w: I.World, f: Function, base: Word, mem: I.Memory)
    requires Cells(f) == 0
    ensures StoreArgs(w, f.name, base, [], I.Allocate(mem, I.CellSet(w, f.name, base, Cells(f)))) == mem
  {
    assert I.CellSet(w, f.name, base, 0) == {};
    assert I.Allocate(mem, {}) == mem;
  }

  /** `v[n]; main() { v[i] = c; return v[i]; }` answers c, for every n, every i below n and every c. */
  lemma ArrayRemembers(p: Program, w: I.World, entry: nat, base: Word, v: string, i: nat, c: nat, fuel: nat)
    requires entry < |p.fns| && p.fns[entry].params == [] && v in p.globals && i < p.globals[v] && i < TWO64
    requires
      var here := Indexed(GA.Variable(v), Literal(i));
      p.fns[entry].body
      == MoreStmts(Simple(Binary(here, Tok.Assign, Literal(c))), Single(Stmt.Return(here)))
    ensures
      var r := RunProgram(p, w, entry, base, [], fuel);
      r.Ok? && r.value == c % TWO64 && r.trace == []
  {
    hide Eval, RunBody, StoreArgs, I.CellSet, I.Allocate, GlobalMemory, Indexed, Sc.Lookup, I.Free;
    var f := p.fns[entry];
    var here := Indexed(GA.Variable(v), Literal(i));
    var fr := FirstFrame(p, f, base);
    var mem := GlobalMemory(p, w);
    var a, word := Programs.ElementAt(w, v, i), I.Is(c % TWO64);
    NoVariables(here, Literal(c), f);
    NoCells(w, f, base, mem);
    NamesGlobal(p, f, v);
    Programs.GlobalsStartZero(p, w);
    ElementAddress(p, w, fr, v, i, mem, [], fuel);
    ElementAddress(p, w, fr, v, i, mem[a := word], [], fuel);
    Rules.LiteralMeans(p, w, fr, "", c, mem, [], fuel);
    Rules.AssignMeans(p, w, fr, here, Literal(c), mem, [], fuel);
    Rules.ReadMeans(p, w, fr, here, mem[a := word], [], fuel) by { ElementIsPlace(v, i); }
    ThenReturns(p, w, f, fr, Binary(here, Tok.Assign, Literal(c)), here, mem, [], fuel);
  }

  lemma ElementIsPlace(v: string, i: nat)
    ensures Rules.IsPlace(Indexed(GA.Variable(v), Literal(i)))
  {
  }

  lemma NoVariables(here: Expr, c: Expr, f: Function)
    requires f.params == [] && f.body == MoreStmts(Simple(Binary(here, Tok.Assign, c)), Single(Stmt.Return(here)))
    ensures Cells(f) == 0
  {
    assert AutosIn(f.body) == Autos(f.body.head) + AutosIn(f.body.next);
    assert AutosIn(f.body.next) == Autos(Stmt.Return(here)) + AutosIn(NoStmts);
  }

  lemma NamesGlobal(p: Program, f: Function, v: string)
    requires f.params == [] && v in p.globals
    ensures Sc.Lookup(FirstScope(p, f), v) == Sc.Global
  {
    var outer := Sc.Inner(map[], Sc.Globals(p.globals.Keys));
    assert Sc.Lookup(outer, v) == Sc.Global;
    assert FirstScope(p, f) == Sc.Inner(map[], outer);
  }
}
