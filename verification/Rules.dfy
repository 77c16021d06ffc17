/** The rules of the language: what each form means, stated by `Eval` and `Exec` of its parts alone. */
module Rules {
  import opened Words
  import opened Ast
  import opened Scopes
  import opened Source
  import Tok = Tokens
  import I = Ir

  // ----- expressions -----

  /** A literal is its number modulo 2 to the 64. */
  lemma LiteralMeans(p: Program, w: I.World, fr: Frame, s: string, n: nat, mem: I.Memory, tr: seq<I.Event>, fuel: nat)
    ensures Eval(p, w, fr, Atom(Tok.IntLit, s, n), mem, tr, fuel) == Ok(n % TWO64, mem, tr)
    ensures Eval(p, w, fr, Atom(Tok.StrLit, s, n), mem, tr, fuel) == Ok(w.lay.data(n), mem, tr)
  {
  }

  /** `&x` is the cell of the declaration that x denotes, or the first word of the global. */
  lemma VariableMeans(p: Program, w: I.World, fr: Frame, x: string, n: nat, mem: I.Memory, tr: seq<I.Event>, fuel: nat)
    ensures forall k: nat :: Lookup(fr.scope, x) == Local(k) && k in fr.bound ==>
              Eval(p, w, fr, Unary(Tok.BitAnd, Atom(Tok.Identifier, x, n)), mem, tr, fuel)
              == Ok(w.lay.cell(fr.fn, fr.base, k), mem, tr)
    ensures forall k: nat :: Lookup(fr.scope, x) == Local(k) && k !in fr.bound ==>
              Eval(p, w, fr, Unary(Tok.BitAnd, Atom(Tok.Identifier, x, n)), mem, tr, fuel) == Fail(I.Unset, tr)
    ensures Lookup(fr.scope, x).Global? ==>
              Eval(p, w, fr, Unary(Tok.BitAnd, Atom(Tok.Identifier, x, n)), mem, tr, fuel)
              == Ok(w.lay.global(x), mem, tr)
  {
    AddressMeans(p, w, fr, Atom(Tok.Identifier, x, n), mem, tr, fuel);
  }

  lemma AddressMeans(p: Program, w: I.World, fr: Frame, e: Expr, mem: I.Memory, tr: seq<I.Event>, fuel: nat)
    ensures Eval(p, w, fr, Unary(Tok.BitAnd, e), mem, tr, fuel) == EvalAddress(p, w, fr, e, mem, tr, fuel)
  {
    hide EvalAddress;
  }

  /** `&*e` is e. */
  lemma AddressOfTarget(p: Program, w: I.World, fr: Frame, e: Expr, mem: I.Memory, tr: seq<I.Event>, fuel: nat)
    ensures Eval(p, w, fr, Unary(Tok.BitAnd, Unary(Tok.Mul, e)), mem, tr, fuel) == Eval(p, w, fr, e, mem, tr, fuel)
  {
    AddressMeans(p, w, fr, Unary(Tok.Mul, e), mem, tr, fuel);
    assert EvalAddress(p, w, fr, Unary(Tok.Mul, e), mem, tr, fuel) == Eval(p, w, fr, e, mem, tr, fuel);
  }

  /** The forms that name a place in memory: a variable, or what an address points to. */
  predicate IsPlace(e: Expr) {
    (e.Atom? && e.kind.Identifier?) || (e.Unary? && e.op.Mul?)
  }

  /** Reading a place: its address, then the word there. */
  lemma ReadMeans(p: Program, w: I.World, fr: Frame, e: Expr, mem: I.Memory, tr: seq<I.Event>, fuel: nat)
    requires IsPlace(e) && Eval(p, w, fr, Unary(Tok.BitAnd, e), mem, tr, fuel).Ok?
    ensures
      var q := Eval(p, w, fr, Unary(Tok.BitAnd, e), mem, tr, fuel);
      && (q.value in q.mem && q.mem[q.value].Is? ==>
            Eval(p, w, fr, e, mem, tr, fuel) == q.(value := q.mem[q.value].word))
      && (q.value !in q.mem ==> Eval(p, w, fr, e, mem, tr, fuel) == Fail(I.Unmapped, q.trace))
      && (q.value in q.mem && q.mem[q.value].Undef? ==>
            Eval(p, w, fr, e, mem, tr, fuel) == Fail(I.Uninitialised, q.trace))
  {
    AddressMeans(p, w, fr, e, mem, tr, fuel);
    if e.Unary? {
      assert EvalAddress(p, w, fr, e, mem, tr, fuel) == Eval(p, w, fr, e.node, mem, tr, fuel);
      assert Eval(p, w, fr, e, mem, tr, fuel) == EvalDeref(p, w, fr, e.node, mem, tr, fuel);
    }
  }

  /** Assignment: the right side first, then the address, then the word is written and is the value. */
  lemma AssignMeans(p: Program, w: I.World, fr: Frame, l: Expr, r: Expr, mem: I.Memory, tr: seq<I.Event>, fuel: nat)
    ensures
      var v := Eval(p, w, fr, r, mem, tr, fuel);
      v.Ok? ==>
        var q := Eval(p, w, fr, Unary(Tok.BitAnd, l), v.mem, v.trace, fuel);
        q.Ok? ==>
          Eval(p, w, fr, Binary(l, Tok.Assign, r), mem, tr, fuel)
          == if q.value in q.mem then Ok(v.value, q.mem[q.value := I.Is(v.value)], q.trace)
             else Fail(I.Unmapped, q.trace)
  {
    hide EvalAddress;
    var v := Eval(p, w, fr, r, mem, tr, fuel);
    assert Eval(p, w, fr, Binary(l, Tok.Assign, r), mem, tr, fuel) == EvalAssign(p, w, fr, l, r, mem, tr, fuel) by {
      hide Eval;
      AssignUnfolds(p, w, fr, l, r, mem, tr, fuel);
    }
    if v.Ok? {
      AddressMeans(p, w, fr, l, v.mem, v.trace, fuel);
    }
  }

  lemma AssignUnfolds(p: Program, w: I.World, fr: Frame, l: Expr, r: Expr, mem: I.Memory, tr: seq<I.Event>, fuel: nat)
    ensures Eval(p, w, fr, Binary(l, Tok.Assign, r), mem, tr, fuel) == EvalAssign(p, w, fr, l, r, mem, tr, fuel)
  {
    hide EvalAssign;
  }

  /** `++e` and `--e`: the address once, then one more or one less is written there and is the value. */
  lemma BumpMeans(p: Program, w: I.World, fr: Frame, e: Expr, mem: I.Memory, tr: seq<I.Event>, fuel: nat)
    ensures
      var q := Eval(p, w, fr, Unary(Tok.BitAnd, e), mem, tr, fuel);
      q.Ok? && q.value in q.mem && q.mem[q.value].Is? ==>
        var up, down := (q.mem[q.value].word + 1) % TWO64, (q.mem[q.value].word - 1) % TWO64;
        && Eval(p, w, fr, Unary(Tok.Inc, e), mem, tr, fuel) == Ok(up, q.mem[q.value := I.Is(up)], q.trace)
        && Eval(p, w, fr, Unary(Tok.Dec, e), mem, tr, fuel) == Ok(down, q.mem[q.value := I.Is(down)], q.trace)
  {
    hide EvalAddress, Eval;
    AddressMeans(p, w, fr, e, mem, tr, fuel);
    BumpUnfolds(p, w, fr, e, Tok.Inc, 1, mem, tr, fuel);
    BumpUnfolds(p, w, fr, e, Tok.Dec, -1, mem, tr, fuel);
  }

  /** `++x` is `x = x + 1` and `--x` is `x = x - 1`, where x is a variable. */
  lemma BumpIsAssignment(p: Program, w: I.World, fr: Frame, x: string, n: nat, mem: I.Memory, tr: seq<I.Event>,
                         fuel: nat)
    ensures
      var v := Atom(Tok.Identifier, x, n);
      var one := Atom(Tok.IntLit, "1", 1);
      && Eval(p, w, fr, Unary(Tok.Inc, v), mem, tr, fuel)
         == Eval(p, w, fr, Binary(v, Tok.Assign, Binary(v, Tok.Add, one)), mem, tr, fuel)
      && Eval(p, w, fr, Unary(Tok.Dec, v), mem, tr, fuel)
         == Eval(p, w, fr, Binary(v, Tok.Assign, Binary(v, Tok.Sub, one)), mem, tr, fuel)
  {
    hide Eval;
    BumpOne(p, w, fr, x, n, Tok.Inc, Tok.Add, 1, mem, tr, fuel);
    BumpOne(p, w, fr, x, n, Tok.Dec, Tok.Sub, -1, mem, tr, fuel);
  }

  lemma BumpOne(p: Program, w: I.World, fr: Frame, x: string, n: nat, up: Tok.Kind, op: Tok.Kind, delta: int,
                mem: I.Memory, tr: seq<I.Event>, fuel: nat)
    requires (up.Inc? && op.Add? && delta == 1) || (up.Dec? && op.Sub? && delta == -1)
    ensures
      var v := Atom(Tok.Identifier, x, n);
      Eval(p, w, fr, Unary(up, v), mem, tr, fuel)
      == Eval(p, w, fr, Binary(v, Tok.Assign, Binary(v, op, Atom(Tok.IntLit, "1", 1))), mem, tr, fuel)
  {
    hide Eval, EvalBinary, EvalAddress, VarAddress, Wrap;
    var v := Atom(Tok.Identifier, x, n);
    var sum := Binary(v, op, Atom(Tok.IntLit, "1", 1));
    BumpUnfolds(p, w, fr, v, up, delta, mem, tr, fuel);
    VariableAddress(p, w, fr, x, n, mem, tr, fuel);
    SumMeans(p, w, fr, x, n, op, delta, mem, tr, fuel);
    AssignUnfolds(p, w, fr, v, sum, mem, tr, fuel);
  }

  lemma BumpUnfolds(p: Program, w: I.World, fr: Frame, e: Expr, up: Tok.Kind, delta: int, mem: I.Memory,
                    tr: seq<I.Event>, fuel: nat)
    requires (up.Inc? && delta == 1) || (up.Dec? && delta == -1)
    ensures Eval(p, w, fr, Unary(up, e), mem, tr, fuel) == Bump(p, w, fr, e, delta, mem, tr, fuel)
  {
    hide Bump;
  }

  lemma VariableAddress(p: Program, w: I.World, fr: Frame, x: string, n: nat, mem: I.Memory, tr: seq<I.Event>,
                        fuel: nat)
    ensures
      EvalAddress(p, w, fr, Atom(Tok.Identifier, x, n), mem, tr, fuel)
      == match VarAddress(w, fr, x)
         case Bad(why) => Fail(why, tr)
         case Got(a) => Ok(a, mem, tr)
  {
    hide VarAddress;
  }

  lemma SumMeans(p: Program, w: I.World, fr: Frame, x: string, n: nat, op: Tok.Kind, delta: int, mem: I.Memory,
                 tr: seq<I.Event>, fuel: nat)
    requires (op.Add? && delta == 1) || (op.Sub? && delta == -1)
    ensures
      Eval(p, w, fr, Binary(Atom(Tok.Identifier, x, n), op, Atom(Tok.IntLit, "1", 1)), mem, tr, fuel)
      == match VarAddress(w, fr, x)
         case Bad(why) => Fail(why, tr)
         case Got(a) =>
           match LoadAt(a, mem, tr)
           case Ok(v, _, _) => Ok(Wrap(v + delta), mem, tr)
           case q => q
  {
    hide VarAddress, LoadAt, Eval;
    var v, one := Atom(Tok.Identifier, x, n), Atom(Tok.IntLit, "1", 1);
    LiteralMeans(p, w, fr, "1", 1, mem, tr, fuel);
    VariableReads(p, w, fr, x, n, mem, tr, fuel);
    BinaryUnfolds(p, w, fr, v, op, one, mem, tr, fuel);
    LoadKeeps(VarAddress(w, fr, x), mem, tr);
  }

  lemma BinaryUnfolds(p: Program, w: I.World, fr: Frame, l: Expr, op: Tok.Kind, r: Expr, mem: I.Memory,
                      tr: seq<I.Event>, fuel: nat)
    requires !op.Assign?
    ensures Eval(p, w, fr, Binary(l, op, r), mem, tr, fuel) == EvalBinary(p, w, fr, l, op, r, mem, tr, fuel)
  {
    hide EvalBinary;
  }

  lemma VariableReads(p: Program, w: I.World, fr: Frame, x: string, n: nat, mem: I.Memory, tr: seq<I.Event>, fuel: nat)
    ensures
      Eval(p, w, fr, Atom(Tok.Identifier, x, n), mem, tr, fuel)
      == match VarAddress(w, fr, x)
         case Bad(why) => Fail(why, tr)
         case Got(a) => LoadAt(a, mem, tr)
  {
    hide VarAddress, LoadAt;
  }

  lemma LoadKeeps(got: I.Got, mem: I.Memory, tr: seq<I.Event>)
    ensures got.Got? ==> !LoadAt(got.value, mem, tr).Timeout?
    ensures got.Got? && LoadAt(got.value, mem, tr).Ok? ==>
              LoadAt(got.value, mem, tr).mem == mem && LoadAt(got.value, mem, tr).trace == tr
  {
  }

  /** `-e` and `!e`. */
  lemma PrefixMeans(p: Program, w: I.World, fr: Frame, e: Expr, mem: I.Memory, tr: seq<I.Event>, fuel: nat)
    ensures
      var q := Eval(p, w, fr, e, mem, tr, fuel);
      q.Ok? ==>
        && Eval(p, w, fr, Unary(Tok.Sub, e), mem, tr, fuel) == q.(value := (0 - q.value) % TWO64)
        && Eval(p, w, fr, Unary(Tok.Not, e), mem, tr, fuel) == q.(value := if q.value == 0 then 1 else 0)
  {
    var q := Eval(p, w, fr, e, mem, tr, fuel);
    assert Eval(p, w, fr, Unary(Tok.Sub, e), mem, tr, fuel) == EvalNeg(p, w, fr, e, mem, tr, fuel);
    assert Eval(p, w, fr, Unary(Tok.Not, e), mem, tr, fuel) == EvalNot(p, w, fr, e, mem, tr, fuel);
  }
}
