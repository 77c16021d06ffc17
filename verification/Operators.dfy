/** What each binary operator of B means and which instruction is emitted for it, kind by kind, in
    terms of numbers and bits. */
module Operators {
  import opened Words
  import opened Ast
  import opened Source
  import opened Bits
  import L = Lowering
  import I = Ir
  import Sc = Scopes
  import Tok = Tokens

  /** The kinds of tokens that are binary operators, assignment apart. */
  const OPERATORS: set<Tok.Kind> := {
    Tok.Add, Tok.Sub, Tok.Mul, Tok.Dev, Tok.Mod, Tok.BitAnd, Tok.BitOr, Tok.BitshiftL, Tok.BitshiftR,
    Tok.Equal, Tok.NotEqual, Tok.Greater, Tok.GreaterEqual, Tok.Lesser, Tok.LesserEqual
  }

  /** The word w stands for the number m in two's complement. */
  predicate StandsFor(w: Word, m: int) {
    -0x8000_0000_0000_0000 <= m < 0x8000_0000_0000_0000 && m % 0x1_0000_0000_0000_0000 == w
  }

  lemma OnlySigned(w: Word, m: int)
    ensures StandsFor(w, m) <==> m == Signed(w)
  {
  }

  /** Division truncated toward zero: the remainder is smaller than the divisor and has the sign of
      the dividend. */
  predicate Truncated(m: int, n: int, q: int, r: int) {
    m == q * n + r && Abs(r) < Abs(n) && (r == 0 || (r < 0) == (m < 0))
  }

  lemma TruncatedIs(m: int, n: int, q: int, r: int)
    requires n != 0 && Truncated(m, n, q, r)
    ensures TruncDiv(m, n) == q && m - n * TruncDiv(m, n) == r
  {
    SignsApart(m, n, q, r);
    EuclidOnly(Abs(m), Abs(q), Abs(n), Abs(r));
    if q == 0 {
      assert q * n == 0;
    }
  }

  /** The quotient's sign is the product of the signs, and sizes divide. */
  lemma SignsApart(m: int, n: int, q: int, r: int)
    requires n != 0 && Truncated(m, n, q, r)
    ensures Abs(m) == Abs(q) * Abs(n) + Abs(r)
    ensures q != 0 ==> (q < 0) == ((m < 0) != (n < 0))
  {
    var k := Abs(q) * Abs(n);
    assert q * n == if (q < 0) == (n < 0) then k else -k;
    if q != 0 {
      AtLeast(Abs(q), Abs(n));
    }
  }

  /** Every dividend and every divisor but 0 have a quotient and a remainder. */
  lemma QuotientExists(m: int, n: int)
    requires n != 0
    ensures Truncated(m, n, TruncDiv(m, n), m - n * TruncDiv(m, n))
  {
    var q, r := Euclid(Abs(m), Abs(n));
    EuclidOnly(Abs(m), q, Abs(n), r);
    SignedTimes(n, q);
    TruncatedHere(m, n, q, r);
  }

  lemma SignedTimes(n: int, q: int)
    ensures n * q == if n < 0 then -(q * Abs(n)) else q * Abs(n)
    ensures n * -q == -(n * q)
  {
  }

  lemma TruncatedHere(m: int, n: int, q: int, r: nat)
    requires n != 0 && Abs(m) == q * Abs(n) + r && r < Abs(n)
    requires Abs(m) / Abs(n) == q && n * -q == -(n * q)
    requires n * q == if n < 0 then -(q * Abs(n)) else q * Abs(n)
    ensures Truncated(m, n, TruncDiv(m, n), m - n * TruncDiv(m, n))
  {
    var z := TruncDiv(m, n);
    assert z == if (m < 0) != (n < 0) then -q else q;
    assert z * n == n * z;
  }

  // ----- operators on words -----

  lemma NumbersMean(x: Word, y: Word, m: int, n: int)
    requires StandsFor(x, m) && StandsFor(y, n)
    ensures Apply(BinOp.Add, x, y) == Some((x + y) % TWO64)
    ensures Apply(BinOp.Sub, x, y) == Some((x - y) % TWO64)
    ensures Apply(BinOp.Mul, x, y) == Some((x * y) % TWO64)
    ensures Apply(BinOp.Eq, x, y) == Some(if m == n then 1 else 0)
    ensures Apply(BinOp.Ne, x, y) == Some(if m != n then 1 else 0)
    ensures Apply(BinOp.Gt, x, y) == Some(if m > n then 1 else 0)
    ensures Apply(BinOp.Ge, x, y) == Some(if m >= n then 1 else 0)
    ensures Apply(BinOp.Lt, x, y) == Some(if m < n then 1 else 0)
    ensures Apply(BinOp.Le, x, y) == Some(if m <= n then 1 else 0)
  {
    OnlySigned(x, m);
    OnlySigned(y, n);
  }

  /** A quotient exists unless the divisor is 0 or the quotient would be 2 to the 63. */
  lemma QuotientMeans(x: Word, y: Word, m: int, n: int, q: int, r: int)
    requires StandsFor(x, m) && StandsFor(y, n)
    ensures n == 0 ==> Apply(BinOp.Div, x, y) == None && Apply(BinOp.Mod, x, y) == None
    ensures n != 0 && Truncated(m, n, q, r) && q < TWO63 ==>
              Apply(BinOp.Div, x, y) == Some(q % TWO64) && Apply(BinOp.Mod, x, y) == Some(r % TWO64)
    ensures n != 0 && Truncated(m, n, q, r) && q >= TWO63 ==>
              Apply(BinOp.Div, x, y) == None && Apply(BinOp.Mod, x, y) == None
  {
    hide Truncated, TruncDiv;
    OnlySigned(x, m);
    OnlySigned(y, n);
    if n != 0 && Truncated(m, n, q, r) {
      TruncatedIs(m, n, q, r);
      TopQuotient(m, n, q, r);
    }
  }

  /** Only the lowest number divided by -1 has too large a quotient. */
  lemma TopQuotient(m: int, n: int, q: int, r: int)
    requires n != 0 && Truncated(m, n, q, r) && -TWO63 <= m < TWO63
    ensures q >= TWO63 <==> m == -TWO63 && n == -1
  {
    SignsApart(m, n, q, r);
    TopSize(Abs(m), Abs(q), Abs(n), Abs(r));
  }

  lemma TopSize(m: nat, q: nat, n: nat, r: nat)
    requires m == q * n + r && r < n && m <= TWO63
    ensures q >= TWO63 <==> m == TWO63 && n == 1
  {
    if n >= 2 {
      SizeTwice(q, n);
    } else {
      assert q * n == q;
    }
  }

  lemma SizeTwice(q: nat, n: nat)
    requires n >= 2
    ensures q * n >= 2 * q
  {
    assert q * n == 2 * q + q * (n - 2);
    assert q * (n - 2) >= 0;
  }

  /** The k-th bit of the result for each of the four operators on bits. */
  predicate BitOf(op: BinOp, x: Word, y: Word, v: Word, k: nat) {
    match op
    case And => Bit(v, k) <==> Bit(x, k) && Bit(y, k)
    case Or => Bit(v, k) <==> Bit(x, k) || Bit(y, k)
    case Shl => Bit(v, k) <==> k >= y % 64 && Bit(x, k - y % 64)
    case Shr => Bit(v, k) <==> Bit(x, if k + y % 64 < 64 then k + y % 64 else 63)
    case _ => true
  }

  lemma BitsMean(op: BinOp, x: Word, y: Word)
    requires op.And? || op.Or? || op.Shl? || op.Shr?
    ensures Apply(op, x, y).Some?
    ensures forall k: nat :: k < 64 ==> BitOf(op, x, y, Apply(op, x, y).value, k)
  {
    hide Bit, Signed, BitAnd, Pow2, Wrap, WordOr;
    forall k: nat | k < 64
      ensures BitOf(op, x, y, Apply(op, x, y).value, k)
    {
      BitwiseMeans(x, y, k);
    }
  }

  // ----- the source -----

  lemma SumTable()
    ensures OperatorOf(Tok.Add) == Some(BinOp.Add) && OperatorOf(Tok.Sub) == Some(BinOp.Sub)
    ensures OperatorOf(Tok.Mul) == Some(BinOp.Mul) && OperatorOf(Tok.Dev) == Some(BinOp.Div)
    ensures OperatorOf(Tok.Mod) == Some(BinOp.Mod)
  {
  }

  lemma BitTable()
    ensures OperatorOf(Tok.BitAnd) == Some(BinOp.And) && OperatorOf(Tok.BitOr) == Some(BinOp.Or)
    ensures OperatorOf(Tok.BitshiftL) == Some(BinOp.Shl) && OperatorOf(Tok.BitshiftR) == Some(BinOp.Shr)
  {
  }

  lemma GreaterTable()
    ensures OperatorOf(Tok.Equal) == Some(BinOp.Eq) && OperatorOf(Tok.NotEqual) == Some(BinOp.Ne)
    ensures OperatorOf(Tok.Greater) == Some(BinOp.Gt) && OperatorOf(Tok.GreaterEqual) == Some(BinOp.Ge)
  {
  }

  lemma LesserTable()
    ensures OperatorOf(Tok.Lesser) == Some(BinOp.Lt) && OperatorOf(Tok.LesserEqual) == Some(BinOp.Le)
  {
  }

  lemma OperatorTable()
    ensures OperatorOf(Tok.Add) == Some(BinOp.Add) && OperatorOf(Tok.Sub) == Some(BinOp.Sub)
    ensures OperatorOf(Tok.Mul) == Some(BinOp.Mul) && OperatorOf(Tok.Dev) == Some(BinOp.Div)
    ensures OperatorOf(Tok.Mod) == Some(BinOp.Mod)
    ensures OperatorOf(Tok.BitAnd) == Some(BinOp.And) && OperatorOf(Tok.BitOr) == Some(BinOp.Or)
    ensures OperatorOf(Tok.BitshiftL) == Some(BinOp.Shl) && OperatorOf(Tok.BitshiftR) == Some(BinOp.Shr)
    ensures OperatorOf(Tok.Equal) == Some(BinOp.Eq) && OperatorOf(Tok.NotEqual) == Some(BinOp.Ne)
    ensures OperatorOf(Tok.Greater) == Some(BinOp.Gt) && OperatorOf(Tok.GreaterEqual) == Some(BinOp.Ge)
    ensures OperatorOf(Tok.Lesser) == Some(BinOp.Lt) && OperatorOf(Tok.LesserEqual) == Some(BinOp.Le)
  {
    hide OperatorOf;
    SumTable();
    BitTable();
    GreaterTable();
    LesserTable();
  }

  /** The operands' values, left before right, and what follows from them. */
  predicate Operands(p: Program, w: I.World, fr: Frame, l: Expr, r: Expr, mem: I.Memory, tr: seq<I.Event>, fuel: nat,
                     x: Word, y: Word, mid: Result, end: Result)
  {
    && mid.Ok? && mid.value == x && Eval(p, w, fr, l, mem, tr, fuel) == mid
    && end.Ok? && end.value == y && Eval(p, w, fr, r, mid.mem, mid.trace, fuel) == end
  }

  lemma BinaryApplies(p: Program, w: I.World, fr: Frame, l: Expr, kind: Tok.Kind, r: Expr, mem: I.Memory,
                      tr: seq<I.Event>, fuel: nat, x: Word, y: Word, mid: Result, end: Result, op: BinOp)
    requires Operands(p, w, fr, l, r, mem, tr, fuel, x, y, mid, end)
    requires OperatorOf(kind) == Some(op) && !kind.Assign?
    ensures Eval(p, w, fr, Binary(l, kind, r), mem, tr, fuel)
            == match Apply(op, x, y)
               case None => Fail(I.NoQuotient, end.trace)
               case Some(v) => end.(value := v)
  {
    hide Apply, OperatorOf;
  }

  /** Addition, subtraction and multiplication are modulo 2 to the 64. */
  lemma ArithmeticMeans(p: Program, w: I.World, fr: Frame, l: Expr, r: Expr, mem: I.Memory, tr: seq<I.Event>, fuel: nat,
                        x: Word, y: Word, mid: Result, end: Result, m: int, n: int)
    requires Operands(p, w, fr, l, r, mem, tr, fuel, x, y, mid, end) && StandsFor(x, m) && StandsFor(y, n)
    ensures Eval(p, w, fr, Binary(l, Tok.Add, r), mem, tr, fuel) == end.(value := (x + y) % TWO64)
    ensures Eval(p, w, fr, Binary(l, Tok.Sub, r), mem, tr, fuel) == end.(value := (x - y) % TWO64)
    ensures Eval(p, w, fr, Binary(l, Tok.Mul, r), mem, tr, fuel) == end.(value := (x * y) % TWO64)
  {
    hide *;
    OperatorTable();
    NumbersMean(x, y, m, n);
    BinaryApplies(p, w, fr, l, Tok.Add, r, mem, tr, fuel, x, y, mid, end, BinOp.Add);
    BinaryApplies(p, w, fr, l, Tok.Sub, r, mem, tr, fuel, x, y, mid, end, BinOp.Sub);
    BinaryApplies(p, w, fr, l, Tok.Mul, r, mem, tr, fuel, x, y, mid, end, BinOp.Mul);
  }

  /** Comparison is of signed numbers and answers 1 or 0. */
  lemma ComparisonsMean(p: Program, w: I.World, fr: Frame, l: Expr, r: Expr, mem: I.Memory, tr: seq<I.Event>, fuel: nat,
                        x: Word, y: Word, mid: Result, end: Result, m: int, n: int)
    requires Operands(p, w, fr, l, r, mem, tr, fuel, x, y, mid, end) && StandsFor(x, m) && StandsFor(y, n)
    ensures Eval(p, w, fr, Binary(l, Tok.Equal, r), mem, tr, fuel) == end.(value := if m == n then 1 else 0)
    ensures Eval(p, w, fr, Binary(l, Tok.NotEqual, r), mem, tr, fuel) == end.(value := if m != n then 1 else 0)
    ensures Eval(p, w, fr, Binary(l, Tok.Greater, r), mem, tr, fuel) == end.(value := if m > n then 1 else 0)
    ensures Eval(p, w, fr, Binary(l, Tok.GreaterEqual, r), mem, tr, fuel) == end.(value := if m >= n then 1 else 0)
    ensures Eval(p, w, fr, Binary(l, Tok.Lesser, r), mem, tr, fuel) == end.(value := if m < n then 1 else 0)
    ensures Eval(p, w, fr, Binary(l, Tok.LesserEqual, r), mem, tr, fuel) == end.(value := if m <= n then 1 else 0)
  {
    hide *;
    OperatorTable();
    NumbersMean(x, y, m, n);
    BinaryApplies(p, w, fr, l, Tok.Equal, r, mem, tr, fuel, x, y, mid, end, BinOp.Eq);
    BinaryApplies(p, w, fr, l, Tok.NotEqual, r, mem, tr, fuel, x, y, mid, end, BinOp.Ne);
    BinaryApplies(p, w, fr, l, Tok.Greater, r, mem, tr, fuel, x, y, mid, end, BinOp.Gt);
    BinaryApplies(p, w, fr, l, Tok.GreaterEqual, r, mem, tr, fuel, x, y, mid, end, BinOp.Ge);
    BinaryApplies(p, w, fr, l, Tok.Lesser, r, mem, tr, fuel, x, y, mid, end, BinOp.Lt);
    BinaryApplies(p, w, fr, l, Tok.LesserEqual, r, mem, tr, fuel, x, y, mid, end, BinOp.Le);
  }

  /** Division truncates toward zero; there is no answer where the divisor is 0 or the quotient is
      2 to the 63. */
  lemma DivisionMeans(p: Program, w: I.World, fr: Frame, l: Expr, r: Expr, mem: I.Memory, tr: seq<I.Event>, fuel: nat,
                      x: Word, y: Word, mid: Result, end: Result, m: int, n: int, q: int, rest: int)
    requires Operands(p, w, fr, l, r, mem, tr, fuel, x, y, mid, end) && StandsFor(x, m) && StandsFor(y, n)
    requires n == 0 || Truncated(m, n, q, rest)
    ensures Eval(p, w, fr, Binary(l, Tok.Dev, r), mem, tr, fuel)
            == if n == 0 || q >= TWO63 then Fail(I.NoQuotient, end.trace) else end.(value := q % TWO64)
    ensures Eval(p, w, fr, Binary(l, Tok.Mod, r), mem, tr, fuel)
            == if n == 0 || q >= TWO63 then Fail(I.NoQuotient, end.trace) else end.(value := rest % TWO64)
  {
    hide Operands, Eval, Apply, StandsFor, Truncated, OperatorOf;
    OperatorTable();
    QuotientMeans(x, y, m, n, q, rest);
    BinaryApplies(p, w, fr, l, Tok.Dev, r, mem, tr, fuel, x, y, mid, end, BinOp.Div);
    BinaryApplies(p, w, fr, l, Tok.Mod, r, mem, tr, fuel, x, y, mid, end, BinOp.Mod);
  }

  /** `&` and `|` work bit by bit. */
  lemma BitwiseAnswers(p: Program, w: I.World, fr: Frame, l: Expr, r: Expr, mem: I.Memory, tr: seq<I.Event>, fuel: nat,
                       x: Word, y: Word, mid: Result, end: Result, k: nat)
    requires Operands(p, w, fr, l, r, mem, tr, fuel, x, y, mid, end) && k < 64
    ensures
      var a := Eval(p, w, fr, Binary(l, Tok.BitAnd, r), mem, tr, fuel);
      a.Ok? && a == end.(value := a.value) && (Bit(a.value, k) <==> Bit(x, k) && Bit(y, k))
    ensures
      var a := Eval(p, w, fr, Binary(l, Tok.BitOr, r), mem, tr, fuel);
      a.Ok? && a == end.(value := a.value) && (Bit(a.value, k) <==> Bit(x, k) || Bit(y, k))
  {
    hide Operands, Eval, Apply, Bit, OperatorOf;
    OperatorTable();
    BitsMean(BinOp.And, x, y);
    BitsMean(BinOp.Or, x, y);
    BinaryApplies(p, w, fr, l, Tok.BitAnd, r, mem, tr, fuel, x, y, mid, end, BinOp.And);
    BinaryApplies(p, w, fr, l, Tok.BitOr, r, mem, tr, fuel, x, y, mid, end, BinOp.Or);
    assert BitOf(BinOp.And, x, y, Apply(BinOp.And, x, y).value, k);
    assert BitOf(BinOp.Or, x, y, Apply(BinOp.Or, x, y).value, k);
  }

  /** `<<` and `>>` move bits by the count modulo 64; `>>` fills up with the sign. */
  lemma ShiftsMean(p: Program, w: I.World, fr: Frame, l: Expr, r: Expr, mem: I.Memory, tr: seq<I.Event>, fuel: nat,
                   x: Word, y: Word, mid: Result, end: Result, k: nat)
    requires Operands(p, w, fr, l, r, mem, tr, fuel, x, y, mid, end) && k < 64
    ensures
      var a := Eval(p, w, fr, Binary(l, Tok.BitshiftL, r), mem, tr, fuel);
      a.Ok? && a == end.(value := a.value) && (Bit(a.value, k) <==> k >= y % 64 && Bit(x, k - y % 64))
    ensures
      var a := Eval(p, w, fr, Binary(l, Tok.BitshiftR, r), mem, tr, fuel);
      a.Ok? && a == end.(value := a.value) && (Bit(a.value, k) <==> Bit(x, if k + y % 64 < 64 then k + y % 64 else 63))
  {
    hide Operands, Eval, Apply, Bit, OperatorOf;
    OperatorTable();
    BitsMean(BinOp.Shl, x, y);
    BitsMean(BinOp.Shr, x, y);
    BinaryApplies(p, w, fr, l, Tok.BitshiftL, r, mem, tr, fuel, x, y, mid, end, BinOp.Shl);
    BinaryApplies(p, w, fr, l, Tok.BitshiftR, r, mem, tr, fuel, x, y, mid, end, BinOp.Shr);
    assert BitOf(BinOp.Shl, x, y, Apply(BinOp.Shl, x, y).value, k);
    assert BitOf(BinOp.Shr, x, y, Apply(BinOp.Shr, x, y).value, k);
  }

  /** Every other kind but assignment is refused, by the semantics and by the lowering. */
  lemma OthersRefused(p: Program, w: I.World, fr: Frame, l: Expr, kind: Tok.Kind, r: Expr, mem: I.Memory,
                      tr: seq<I.Event>, fuel: nat, sc: Sc.Scope, c: nat)
    requires kind !in OPERATORS && kind != Tok.Assign
    ensures Eval(p, w, fr, Binary(l, kind, r), mem, tr, fuel) == Fail(I.Malformed, tr)
    ensures L.LowerExpr(Binary(l, kind, r), sc, c) == L.Fatal
  {
  }

  // ----- the lowering -----

  /** The code of `l kind r` is that of `l`, that of `r`, and the instruction `op`. */
  predicate Emits(l: Expr, kind: Tok.Kind, op: BinOp, r: Expr, sc: Sc.Scope, c: nat) {
    L.LowerExpr(Binary(l, kind, r), sc, c)
    == match L.LowerExpr(l, sc, c)
       case Fatal => L.Fatal
       case Low(code1, a, c1) =>
         match L.LowerExpr(r, sc, c1)
         case Fatal => L.Fatal
         case Low(code2, b, c2) => L.Low(code1 + code2 + [I.Bin(op, c2 + 1, a, b)], c2 + 1, c2 + 1)
  }

  lemma EmitsOne(l: Expr, kind: Tok.Kind, op: BinOp, r: Expr, sc: Sc.Scope, c: nat)
    requires OperatorOf(kind) == Some(op) && !kind.Assign?
    ensures Emits(l, kind, op, r, sc, c)
  {
    hide OperatorOf;
    assert L.LowerExpr(Binary(l, kind, r), sc, c) == L.LowerBinary(l, kind, r, sc, c);
  }

  /** The operation that is emitted for each kind of operator. */
  lemma OperationOf(l: Expr, r: Expr, sc: Sc.Scope, c: nat)
    ensures Emits(l, Tok.Add, BinOp.Add, r, sc, c) && Emits(l, Tok.Sub, BinOp.Sub, r, sc, c)
    ensures Emits(l, Tok.Mul, BinOp.Mul, r, sc, c) && Emits(l, Tok.Dev, BinOp.Div, r, sc, c)
    ensures Emits(l, Tok.Mod, BinOp.Mod, r, sc, c)
    ensures Emits(l, Tok.BitAnd, BinOp.And, r, sc, c) && Emits(l, Tok.BitOr, BinOp.Or, r, sc, c)
    ensures Emits(l, Tok.BitshiftL, BinOp.Shl, r, sc, c) && Emits(l, Tok.BitshiftR, BinOp.Shr, r, sc, c)
    ensures Emits(l, Tok.Equal, BinOp.Eq, r, sc, c) && Emits(l, Tok.NotEqual, BinOp.Ne, r, sc, c)
    ensures Emits(l, Tok.Greater, BinOp.Gt, r, sc, c) && Emits(l, Tok.GreaterEqual, BinOp.Ge, r, sc, c)
    ensures Emits(l, Tok.Lesser, BinOp.Lt, r, sc, c) && Emits(l, Tok.LesserEqual, BinOp.Le, r, sc, c)
  {
    hide *;
    OperatorTable();
    EmitsOne(l, Tok.Add, BinOp.Add, r, sc, c);
    EmitsOne(l, Tok.Sub, BinOp.Sub, r, sc, c);
    EmitsOne(l, Tok.Mul, BinOp.Mul, r, sc, c);
    EmitsOne(l, Tok.Dev, BinOp.Div, r, sc, c);
    EmitsOne(l, Tok.Mod, BinOp.Mod, r, sc, c);
    EmitsOne(l, Tok.BitAnd, BinOp.And, r, sc, c);
    EmitsOne(l, Tok.BitOr, BinOp.Or, r, sc, c);
    EmitsOne(l, Tok.BitshiftL, BinOp.Shl, r, sc, c);
    EmitsOne(l, Tok.BitshiftR, BinOp.Shr, r, sc, c);
    EmitsOne(l, Tok.Equal, BinOp.Eq, r, sc, c);
    EmitsOne(l, Tok.NotEqual, BinOp.Ne, r, sc, c);
    EmitsOne(l, Tok.Greater, BinOp.Gt, r, sc, c);
    EmitsOne(l, Tok.GreaterEqual, BinOp.Ge, r, sc, c);
    EmitsOne(l, Tok.Lesser, BinOp.Lt, r, sc, c);
    EmitsOne(l, Tok.LesserEqual, BinOp.Le, r, sc, c);
  }
}
