/** Global arrays behave like maps from indices to words. */
module GlobalArrays {
  import opened Words
  import opened Ast
  import opened Scopes
  import opened Source
  import Tok = Tokens
  import I = Ir

  function Variable(g: string): Expr {
    Atom(Tok.Identifier, g, 0)
  }

  /** Different words of the globals have different addresses. */
  ghost predicate Separate(p: Program, w: I.World) {
    forall g: string, h: string, i: nat, j: nat ::
      (&& g in p.globals && h in p.globals
       && i < GlobalSize(p.globals[g]) && j < GlobalSize(p.globals[h])
       && GlobalWord(w, g, i) == GlobalWord(w, h, j)) ==> g == h && i == j
  }

  // ----- the section of the globals -----

  /** The words reserved for the first k globals of a section. */
  function Reserved(p: Program, names: seq<string>, k: nat): nat
    requires k <= |names| && forall g :: g in names ==> g in p.globals
  {
    if k == 0 then 0 else Reserved(p, names, k - 1) + GlobalSize(p.globals[names[k - 1]])
  }

  /** The globals stand one after another from `start` on, in the order of `names`, as a section of
      `resq` lines is laid out, and the section does not wrap around. */
  ghost predicate Assembled(p: Program, w: I.World, names: seq<string>, start: nat) {
    && Distinct(names) && (forall g :: g in names <==> g in p.globals)
    && start + 8 * Reserved(p, names, |names|) <= TWO64
    && forall k :: 0 <= k < |names| ==> w.lay.global(names[k]) == Wrap(start + 8 * Reserved(p, names, k))
  }

  lemma {:induction false} ReservedGrows(p: Program, names: seq<string>, j: nat, k: nat)
    requires j < k <= |names| && forall g :: g in names ==> g in p.globals
    ensures Reserved(p, names, j) + GlobalSize(p.globals[names[j]]) <= Reserved(p, names, k)
    decreases k
  {
    hide GlobalSize;
    if j < k - 1 {
      ReservedGrows(p, names, j, k - 1);
    }
  }

  lemma WordPlace(p: Program, w: I.World, names: seq<string>, start: nat, k: nat, i: nat)
    requires Assembled(p, w, names, start) && k < |names| && i < GlobalSize(p.globals[names[k]])
    ensures GlobalWord(w, names[k], i) == start + 8 * (Reserved(p, names, k) + i)
    ensures Reserved(p, names, k) + i < Reserved(p, names, |names|)
  {
    hide GlobalSize, Reserved;
    ReservedGrows(p, names, k, |names|);
    var a := start + 8 * Reserved(p, names, k);
    assert 0 <= a < TWO64 && Wrap(a) == a;
  }

  /** No two words of an assembled section share an address. */
  lemma AssembledSeparate(p: Program, w: I.World, names: seq<string>, start: nat)
    requires Assembled(p, w, names, start)
    ensures Separate(p, w)
  {
    hide GlobalSize, Reserved, GlobalWord, Wrap;
    forall g: string, h: string, i: nat, j: nat |
      && g in p.globals && h in p.globals
      && i < GlobalSize(p.globals[g]) && j < GlobalSize(p.globals[h])
      && GlobalWord(w, g, i) == GlobalWord(w, h, j)
      ensures g == h && i == j
    {
      var k :| 0 <= k < |names| && names[k] == g;
      var l :| 0 <= l < |names| && names[l] == h;
      WordPlace(p, w, names, start, k, i);
      WordPlace(p, w, names, start, l, j);
      if k < l {
        ReservedGrows(p, names, k, l);
      } else if l < k {
        ReservedGrows(p, names, l, k);
      }
    }
  }

  /** What index i of global g holds. */
  function Content(mem: I.Memory, w: I.World, g: string, i: nat): I.Value {
    if GlobalWord(w, g, i) in mem then mem[GlobalWord(w, g, i)] else I.Undef
  }

  function Scale(q: Result): Result {
    match q
    case Ok(v, mem, tr) => Ok(Wrap(v * Wrap(8)), mem, tr)
    case _ => q
  }

  /** The address of the word of g that `q` answers. */
  function Locate(w: I.World, g: string, q: Result): Result {
    match q
    case Ok(v, mem, tr) => Ok(GlobalWord(w, g, v), mem, tr)
    case _ => q
  }

  lemma Scaled(i: Word, base: Word)
    ensures Wrap(Wrap(i * Wrap(8)) + base) == Wrap(base + 8 * i)
  {
    var q := (i * 8) / TWO64;
    assert i * 8 == q * TWO64 + (i * 8) % TWO64;
    WrapMore((i * 8) % TWO64 + base, q);
    assert base + 8 * i == (i * 8) % TWO64 + base + q * TWO64;
  }

  lemma WrapMore(x: int, k: int)
    ensures Wrap(x + k * TWO64) == Wrap(x)
  {
  }

  /** The eight-byte offset: first the index is computed, then the address. */
  lemma OffsetIs(p: Program, w: I.World, fr: Frame, e: Expr, mem: I.Memory, tr: seq<I.Event>, fuel: nat)
    ensures EvalBinary(p, w, fr, e, Tok.Mul, Eight(), mem, tr, fuel)
            == Scale(Eval(p, w, fr, e, mem, tr, fuel))
  {
    hide Wrap;
  }

  lemma AddressOf(p: Program, w: I.World, fr: Frame, g: string, mem: I.Memory, tr: seq<I.Event>, fuel: nat)
    requires Lookup(fr.scope, g) == Global
    ensures Eval(p, w, fr, Unary(Tok.BitAnd, Variable(g)), mem, tr, fuel) == Ok(w.lay.global(g), mem, tr)
  {
    assert EvalAddress(p, w, fr, Variable(g), mem, tr, fuel) == Ok(w.lay.global(g), mem, tr);
  }

  lemma SumIs(p: Program, w: I.World, fr: Frame, a: Expr, g: string, mem: I.Memory, tr: seq<I.Event>, fuel: nat)
    requires Lookup(fr.scope, g) == Global
    ensures EvalBinary(p, w, fr, a, Tok.Add, Unary(Tok.BitAnd, Variable(g)), mem, tr, fuel)
            == match Eval(p, w, fr, a, mem, tr, fuel)
               case Ok(v, mem1, tr1) => Ok(Wrap(v + w.lay.global(g)), mem1, tr1)
               case q => q
  {
    hide Wrap, Eval, EvalAddress;
    var q := Eval(p, w, fr, a, mem, tr, fuel);
    if q.Ok? {
      AddressOf(p, w, fr, g, q.mem, q.trace, fuel);
    }
  }

  /** The address of `g[e]` is the word e of g, with whatever effects e has. */
  lemma IndexAddress(p: Program, w: I.World, fr: Frame, g: string, e: Expr, mem: I.Memory, tr: seq<I.Event>, fuel: nat)
    requires Lookup(fr.scope, g) == Global
    ensures EvalAddress(p, w, fr, Indexed(Variable(g), e), mem, tr, fuel)
            == Locate(w, g, Eval(p, w, fr, e, mem, tr, fuel))
  {
    hide Wrap, EvalBinary, Eval, EvalAddress;
    var eight, here := Eight(), Unary(Tok.BitAnd, Variable(g));
    var scaled := Binary(e, Tok.Mul, eight);
    OffsetIs(p, w, fr, e, mem, tr, fuel);
    Unfold(p, w, fr, e, Tok.Mul, eight, mem, tr, fuel);
    SumIs(p, w, fr, scaled, g, mem, tr, fuel);
    Unfold(p, w, fr, scaled, Tok.Add, here, mem, tr, fuel);
    if Eval(p, w, fr, e, mem, tr, fuel).Ok? {
      Scaled(Eval(p, w, fr, e, mem, tr, fuel).value, w.lay.global(g));
    }
  }

  lemma Unfold(p: Program, w: I.World, fr: Frame, a: Expr, op: Tok.Kind, b: Expr, mem: I.Memory, tr: seq<I.Event>,
               fuel: nat)
    requires op != Tok.Assign
    ensures Eval(p, w, fr, Binary(a, op, b), mem, tr, fuel) == EvalBinary(p, w, fr, a, op, b, mem, tr, fuel)
    ensures EvalAddress(p, w, fr, Unary(Tok.Mul, Binary(a, op, b)), mem, tr, fuel)
            == EvalBinary(p, w, fr, a, op, b, mem, tr, fuel)
  {
    hide EvalBinary, EvalAssign, EvalCall;
    assert Eval(p, w, fr, Binary(a, op, b), mem, tr, fuel) == EvalBinary(p, w, fr, a, op, b, mem, tr, fuel);
  }

  /** Reading `g[e]` answers what index e holds. */
  lemma IndexReads(p: Program, w: I.World, fr: Frame, g: string, e: Expr, mem: I.Memory, tr: seq<I.Event>, fuel: nat)
    requires Lookup(fr.scope, g) == Global
    ensures
      var q := Eval(p, w, fr, e, mem, tr, fuel);
      q.Ok? && Content(q.mem, w, g, q.value).Is? ==>
        Eval(p, w, fr, Indexed(Variable(g), e), mem, tr, fuel)
        == Ok(Content(q.mem, w, g, q.value).word, q.mem, q.trace)
  {
    hide Wrap;
    IndexAddress(p, w, fr, g, e, mem, tr, fuel);
    var inner := Binary(Binary(e, Tok.Mul, Eight()), Tok.Add, Unary(Tok.BitAnd, Variable(g)));
    assert EvalAddress(p, w, fr, Unary(Tok.Mul, inner), mem, tr, fuel) == Eval(p, w, fr, inner, mem, tr, fuel);
  }

  /** `g[e] = r` changes index e of g to the value of r and no other word of any global. */
  lemma IndexWrites(p: Program, w: I.World, fr: Frame, g: string, e: Expr, r: Expr, mem: I.Memory, tr: seq<I.Event>,
                    fuel: nat)
    requires Lookup(fr.scope, g) == Global && g in p.globals && Separate(p, w)
    ensures
      var v := Eval(p, w, fr, r, mem, tr, fuel);
      v.Ok? ==>
        var q := Eval(p, w, fr, e, v.mem, v.trace, fuel);
        q.Ok? && q.value < GlobalSize(p.globals[g]) && GlobalWord(w, g, q.value) in q.mem ==>
          var a := Eval(p, w, fr, Binary(Indexed(Variable(g), e), Tok.Assign, r), mem, tr, fuel);
          && a.Ok? && a.value == v.value && a.trace == q.trace
          && Content(a.mem, w, g, q.value) == I.Is(v.value)
          && (forall h: string, j: nat :: h in p.globals && j < GlobalSize(p.globals[h]) && (h, j) != (g, q.value) ==>
                Content(a.mem, w, h, j) == Content(q.mem, w, h, j))
  {
    hide Wrap, GlobalWord, EvalAddress;
    var v := Eval(p, w, fr, r, mem, tr, fuel);
    if v.Ok? {
      IndexAddress(p, w, fr, g, e, v.mem, v.trace, fuel);
      assert Eval(p, w, fr, Binary(Indexed(Variable(g), e), Tok.Assign, r), mem, tr, fuel)
             == EvalAssign(p, w, fr, Indexed(Variable(g), e), r, mem, tr, fuel);
    }
  }
}
