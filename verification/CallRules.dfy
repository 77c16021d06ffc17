/** The rules of calls: arguments from left to right, parameters that hold them, and what comes back. */
module CallRules {
  import opened Words
  import opened Ast
  import opened Scopes
  import opened Source
  import opened Rules
  import Naming
  import Tok = Tokens
  import I = Ir

  function ArgAt(args: Exprs, i: nat): Expr
    requires i < Argc(args)
  {
    if i == 0 then args.head else ArgAt(args.next, i - 1)
  }

  /** The state before argument i; behind the last argument, the state after all of them. */
  function Ahead(rs: seq<Result>, mem: I.Memory, tr: seq<I.Event>, i: nat): Result
    requires i <= |rs|
  {
    if i == 0 then Ok(0, mem, tr) else rs[i - 1]
  }

  /** The answers of the arguments, each computed where the one before it has ended. */
  predicate InTurn(p: Program, w: I.World, fr: Frame, args: Exprs, mem: I.Memory, tr: seq<I.Event>, fuel: nat,
                   rs: seq<Result>)
  {
    && |rs| == Argc(args)
    && (forall i :: 0 <= i < |rs| ==> rs[i].Ok?)
    && (forall i :: 0 <= i < |rs| ==>
          var b := Ahead(rs, mem, tr, i);
          b.Ok? && rs[i] == Eval(p, w, fr, ArgAt(args, i), b.mem, b.trace, fuel))
  }

  function ValuesOf(rs: seq<Result>): seq<Word>
    requires forall i :: 0 <= i < |rs| ==> rs[i].Ok?
  {
    seq(|rs|, i requires 0 <= i < |rs| => rs[i].value)
  }

  lemma FirstInTurn(p: Program, w: I.World, fr: Frame, args: Exprs, mem: I.Memory, tr: seq<I.Event>, fuel: nat,
                    rs: seq<Result>)
    requires args.MoreExprs? && InTurn(p, w, fr, args, mem, tr, fuel, rs)
    ensures rs != [] && rs[0].Ok? && rs[0] == Eval(p, w, fr, args.head, mem, tr, fuel)
    ensures InTurn(p, w, fr, args.next, rs[0].mem, rs[0].trace, fuel, rs[1..])
  {
    var rest := rs[1..];
    assert Ahead(rs, mem, tr, 0) == Ok(0, mem, tr) && ArgAt(args, 0) == args.head;
    forall i | 0 <= i < |rest|
      ensures
        var b := Ahead(rest, rs[0].mem, rs[0].trace, i);
        b.Ok? && rest[i] == Eval(p, w, fr, ArgAt(args.next, i), b.mem, b.trace, fuel)
    {
      assert rest[i] == rs[i + 1] && ArgAt(args, i + 1) == ArgAt(args.next, i);
      assert Ahead(rs, mem, tr, i + 1) == rs[i];
    }
  }

  lemma FirstArgument(p: Program, w: I.World, fr: Frame, args: Exprs, mem: I.Memory, tr: seq<I.Event>, fuel: nat,
                      r: Result, rest: Results)
    requires args.MoreExprs? && Eval(p, w, fr, args.head, mem, tr, fuel) == r && r.Ok?
    requires EvalArgs(p, w, fr, args.next, r.mem, r.trace, fuel) == rest && rest.Oks?
    ensures EvalArgs(p, w, fr, args, mem, tr, fuel) == Oks([r.value] + rest.values, rest.mem, rest.trace)
  {
    hide Eval;
  }

  lemma MoreValues(rs: seq<Result>, mem: I.Memory, tr: seq<I.Event>)
    requires rs != [] && forall i :: 0 <= i < |rs| ==> rs[i].Ok?
    ensures ValuesOf(rs) == [rs[0].value] + ValuesOf(rs[1..])
    ensures var a, b := Ahead(rs, mem, tr, |rs|), Ahead(rs[1..], rs[0].mem, rs[0].trace, |rs| - 1);
            a.Ok? && b.Ok? && a.mem == b.mem && a.trace == b.trace
  {
  }

  lemma NoArguments(p: Program, w: I.World, fr: Frame, args: Exprs, mem: I.Memory, tr: seq<I.Event>, fuel: nat,
                    rs: seq<Result>)
    requires args.NoExprs? && InTurn(p, w, fr, args, mem, tr, fuel, rs)
    ensures rs == [] && ValuesOf(rs) == [] && Ahead(rs, mem, tr, 0) == Ok(0, mem, tr)
    ensures EvalArgs(p, w, fr, args, mem, tr, fuel) == Oks([], mem, tr)
  {
    hide Eval;
  }

  lemma {:induction false} ArgumentsInTurn(p: Program, w: I.World, fr: Frame, args: Exprs, mem: I.Memory,
                                           tr: seq<I.Event>, fuel: nat, rs: seq<Result>)
    requires InTurn(p, w, fr, args, mem, tr, fuel, rs)
    ensures EvalArgs(p, w, fr, args, mem, tr, fuel)
            == var b := Ahead(rs, mem, tr, |rs|); Oks(ValuesOf(rs), b.mem, b.trace)
    decreases args
  {
    assert forall i :: 0 <= i < |rs| ==> rs[i].Ok?;
    hide *;
    if args.NoExprs? {
      NoArguments(p, w, fr, args, mem, tr, fuel, rs);
    } else {
      FirstInTurn(p, w, fr, args, mem, tr, fuel, rs);
      ArgumentsInTurn(p, w, fr, args.next, rs[0].mem, rs[0].trace, fuel, rs[1..]);
      FirstArgument(p, w, fr, args, mem, tr, fuel, rs[0], EvalArgs(p, w, fr, args.next, rs[0].mem, rs[0].trace, fuel));
      MoreValues(rs, mem, tr);
    }
  }

  lemma CallUnfolds(p: Program, w: I.World, fr: Frame, name: string, args: Exprs, mem: I.Memory, tr: seq<I.Event>,
                    fuel: nat)
    ensures Eval(p, w, fr, FunctionCall(name, args), mem, tr, fuel) == EvalCall(p, w, fr, name, args, mem, tr, fuel)
  {
    hide EvalCall;
  }

  /** A call of a function that the program does not define: the arguments from left to right, then
      one event with their values and the answer. */
  lemma OutsideCall(p: Program, w: I.World, fr: Frame, name: string, args: Exprs, mem: I.Memory, tr: seq<I.Event>,
                    fuel: nat, rs: seq<Result>)
    requires InTurn(p, w, fr, args, mem, tr, fuel, rs) && |rs| == w.env.arity(name)
    requires (forall i :: 0 <= i < |p.fns| ==> p.fns[i].name != name) && w.lay.room(fr.fn, fr.base, |rs|)
    ensures
      var b := Ahead(rs, mem, tr, |rs|);
      var v := w.env.answer(b.trace, name, ValuesOf(rs));
      Eval(p, w, fr, FunctionCall(name, args), mem, tr, fuel)
      == Ok(v, b.mem, b.trace + [I.Event(name, ValuesOf(rs), v)])
  {
    hide InTurn, EvalArgs, Eval, Enter;
    CallUnfolds(p, w, fr, name, args, mem, tr, fuel);
    ArgumentsInTurn(p, w, fr, args, mem, tr, fuel, rs);
  }

  /** A call of a function of the program, where there is room: it is entered with the values of the
      arguments. */
  lemma InsideCall(p: Program, w: I.World, fr: Frame, i: nat, args: Exprs, mem: I.Memory, tr: seq<I.Event>,
                   fuel: nat, rs: seq<Result>, base: Word)
    requires InTurn(p, w, fr, args, mem, tr, fuel, rs) && fuel > 0
    requires i < |p.fns| && |rs| == |p.fns[i].params| && forall j :: 0 <= j < i ==> p.fns[j].name != p.fns[i].name
    requires w.lay.enter(fr.fn, fr.base, p.fns[i].name, |rs|) == Some(base)
    ensures
      Eval(p, w, fr, FunctionCall(p.fns[i].name, args), mem, tr, fuel)
      == var b := Ahead(rs, mem, tr, |rs|); Enter(p, w, p.fns[i], base, ValuesOf(rs), b.mem, b.trace, fuel - 1)
  {
    hide InTurn, EvalArgs, Eval, Enter;
    CallUnfolds(p, w, fr, p.fns[i].name, args, mem, tr, fuel);
    ArgumentsInTurn(p, w, fr, args, mem, tr, fuel, rs);
    var at := FindFunction(p.fns, p.fns[i].name);
    assert at == i;
  }

  // ----- parameters -----

  /** The cells of the parameters are different places. */
  ghost predicate CellsApart(w: I.World, f: Function, base: Word) {
    forall j, k :: 0 <= j < k < |f.params| ==> w.lay.cell(f.name, base, j) != w.lay.cell(f.name, base, k)
  }

  lemma {:induction false} ArgumentStored(w: I.World, f: Function, base: Word, args: seq<Word>, mem: I.Memory, i: nat)
    requires CellsApart(w, f, base) && i < |args| <= |f.params|
    ensures
      var after := StoreArgs(w, f.name, base, args, mem);
      var a := w.lay.cell(f.name, base, i);
      a in after && after[a] == I.Is(args[i])
    decreases |args|
  {
    var n := |args| - 1;
    if i < n {
      ArgumentStored(w, f, base, args[..n], mem, i);
      assert args[..n][i] == args[i];
    }
  }

  /** Where a function begins, its i-th parameter is a variable that holds the i-th argument, whatever
      globals there are. */
  lemma ParameterHoldsArgument(p: Program, w: I.World, f: Function, base: Word, args: seq<Word>, mem: I.Memory,
                               tr: seq<I.Event>, fuel: nat, i: nat, n: nat)
    requires CellsApart(w, f, base) && Distinct(f.params) && |args| == |f.params| && i < |args|
    ensures
      var after := StoreArgs(w, f.name, base, args, mem);
      Eval(p, w, FirstFrame(p, f, base), Atom(Tok.Identifier, f.params[i], n), after, tr, fuel)
      == Ok(args[i], after, tr)
  {
    hide CellsApart, Eval, FirstScope, Distinct, Lookup, StoreArgs;
    var fr := FirstFrame(p, f, base);
    var x := Atom(Tok.Identifier, f.params[i], n);
    var after := StoreArgs(w, f.name, base, args, mem);
    Naming.ParameterHidesGlobals(p, f, i, []);
    assert Naming.Within([], fr.scope) == fr.scope;
    VariableMeans(p, w, fr, f.params[i], n, after, tr, fuel);
    ArgumentStored(w, f, base, args, mem, i);
    ReadMeans(p, w, fr, x, after, tr, fuel);
  }

  // ----- what comes back -----

  /** `return` answers the value of its expression. */
  lemma BodyReturns(p: Program, w: I.World, f: Function, base: Word, args: seq<Word>, mem: I.Memory,
                    tr: seq<I.Event>, fuel: nat, e: Expr)
    requires f.body == Single(Stmt.Return(e))
    ensures
      var mem0 := StoreArgs(w, f.name, base, args, I.Allocate(mem, I.CellSet(w, f.name, base, Cells(f))));
      var q := Eval(p, w, FirstFrame(p, f, base), e, mem0, tr, fuel);
      q.Ok? ==> var r := Enter(p, w, f, base, args, mem, tr, fuel);
                r.Ok? && r.value == q.value && r.trace == q.trace
  {
    hide StoreArgs, I.CellSet, I.Allocate, I.Free, FirstScope, Numbers;
    var mem0 := StoreArgs(w, f.name, base, args, I.Allocate(mem, I.CellSet(w, f.name, base, Cells(f))));
    var fr := FirstFrame(p, f, base);
    assert Exec(p, w, fr, Stmt.Return(e), |f.params|, Start, mem0, tr, fuel)
        == ExecPlain(p, w, fr, Stmt.Return(e), |f.params|, mem0, tr, fuel);
    var o := Exec(p, w, fr, Stmt.Return(e), |f.params|, Start, mem0, tr, fuel);
    assert !o.Next? ==> ExecAll(p, w, fr, f.body, |f.params|, Start, mem0, tr, fuel) == o;
    assert o.Returned? ==> RunBody(p, w, f, fr, Start, mem0, tr, fuel) == o;
  }

  /** A function that ends without a `return` answers 0. */
  lemma FallsOffTheEnd(p: Program, w: I.World, f: Function, base: Word, args: seq<Word>, mem: I.Memory,
                       tr: seq<I.Event>, fuel: nat)
    requires f.body == NoStmts
    ensures
      var r := Enter(p, w, f, base, args, mem, tr, fuel);
      r.Ok? && r.value == 0 && r.trace == tr
  {
    hide StoreArgs, I.CellSet, I.Allocate, I.Free, FirstScope, Numbers;
    var mem0 := StoreArgs(w, f.name, base, args, I.Allocate(mem, I.CellSet(w, f.name, base, Cells(f))));
    var fr := FirstFrame(p, f, base);
    assert ExecAll(p, w, fr, NoStmts, |f.params|, Start, mem0, tr, fuel) == Next(mem0, tr, fr.bound);
    assert RunBody(p, w, f, fr, Start, mem0, tr, fuel) == Returned(0, mem0, tr);
  }

  /** `f(.., x, ..) { return x; }` answers its i-th argument, even where there is a global x. */
  lemma ReturnsItsArgument(p: Program, w: I.World, f: Function, base: Word, args: seq<Word>, mem: I.Memory,
                           tr: seq<I.Event>, fuel: nat, i: nat, n: nat)
    requires CellsApart(w, f, base) && Distinct(f.params) && |args| == |f.params| && i < |args|
    requires f.body == Single(Stmt.Return(Atom(Tok.Identifier, f.params[i], n)))
    ensures
      var r := Enter(p, w, f, base, args, mem, tr, fuel);
      r.Ok? && r.value == args[i] && r.trace == tr
  {
    hide CellsApart, Distinct, Enter, Eval, StoreArgs;
    BodyReturns(p, w, f, base, args, mem, tr, fuel, Atom(Tok.Identifier, f.params[i], n));
    ParameterHoldsArgument(p, w, f, base, args, I.Allocate(mem, I.CellSet(w, f.name, base, Cells(f))), tr, fuel, i, n);
  }
}
