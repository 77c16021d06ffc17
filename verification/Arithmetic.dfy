/** The processor's arithmetic is B's arithmetic. */
module Arithmetic {
  import opened Words
  import opened X86

  lemma WrapAdd(x: int, k: int)
    ensures Wrap(x + k * TWO64) == Wrap(x)
  {
  }

  /** The low half of a signed product is the low half of the unsigned one. */
  lemma ImulIsMul(a: Word, b: Word)
    ensures Wrap(Signed(a) * Signed(b)) == Wrap(a * b)
  {
    var i := if a < TWO63 then 0 else 1;
    var j := if b < TWO63 then 0 else 1;
    assert Signed(a) == a - i * TWO64 && Signed(b) == b - j * TWO64;
    var k := i * j * TWO64 - a * j - b * i;
    assert Signed(a) * Signed(b) == a * b + k * TWO64 by {
      Expand(a, b, i, j);
    }
    WrapAdd(a * b, k);
  }

  lemma Expand(a: int, b: int, i: int, j: int)
    requires 0 <= i <= 1 && 0 <= j <= 1
    ensures (a - i * TWO64) * (b - j * TWO64) == a * b + (i * j * TWO64 - a * j - b * i) * TWO64
  {
  }

  /** Sign extension makes rdx:rax the signed value of rax. */
  lemma CqoExtends(a: Word)
    ensures Signed(if a >= TWO63 then TWO64 - 1 else 0) * TWO64 + a == Signed(a)
  {
  }

  lemma Quotient(x: nat, y: nat)
    requires y > 0
    ensures 0 <= x / y
    ensures y == 1 ==> x / y == x
    ensures y >= 2 ==> 2 * (x / y) <= x
  {
    var q := x / y;
    assert x == q * y + x % y;
    if y >= 2 {
      assert q * 2 <= q * y;
    }
  }

  lemma TruncDivBound(n: int, d: int)
    requires d != 0 && -TWO63 <= n < TWO63
    ensures -TWO63 <= TruncDiv(n, d) <= TWO63
    ensures TruncDiv(n, d) == TWO63 <==> n == -TWO63 && d == -1
  {
    var x, y := Abs(n), Abs(d);
    Quotient(x, y);
    var q := x / y;
    assert TruncDiv(n, d) == if (n < 0) != (d < 0) then -q else q;
    assert 0 <= q <= TWO63;
    assert q == TWO63 ==> y == 1 && x == TWO63;
  }

  /** `idiv` faults exactly where the quotient does not exist. */
  lemma DivideFits(a: Word, b: Word)
    requires b != 0
    ensures Signed(b) != 0
    ensures -TWO63 <= TruncDiv(Signed(a), Signed(b)) < TWO63 <==> Words.Divides(a, b)
  {
    TruncDivBound(Signed(a), Signed(b));
  }

  lemma CountIs(b: Word)
    ensures b % 256 % 64 == b % 64
  {
  }

  /** The flags of `cmp` decide the six comparisons of signed words. */
  lemma CompareDecides(a: Word, b: Word)
    ensures Compare(a, b).Known?
    ensures Holds(SetE, Compare(a, b)) == (a == b)
    ensures Holds(SetNE, Compare(a, b)) == (a != b)
    ensures Holds(SetG, Compare(a, b)) == (Signed(a) > Signed(b))
    ensures Holds(SetGE, Compare(a, b)) == (Signed(a) >= Signed(b))
    ensures Holds(SetL, Compare(a, b)) == (Signed(a) < Signed(b))
    ensures Holds(SetLE, Compare(a, b)) == (Signed(a) <= Signed(b))
  {
    assert a - b >= 0 ==> Wrap(a - b) == a - b;
    assert a - b < 0 ==> Wrap(a - b) == a - b + TWO64;
  }
}
