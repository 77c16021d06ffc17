/** The bits of words: what the bitwise operators and the shifts do to each of them. */
module Bits {
  import opened Words

  /** Bit k of a number, the lowest being bit 0. */
  predicate Bit(w: nat, k: nat) {
    if k == 0 then w % 2 == 1 else Bit(w / 2, k - 1)
  }

  /** Numbers of n bits with the same bits are the same number. */
  lemma {:induction false} BitsDecide(a: nat, b: nat, n: nat)
    requires a < Pow2(n) && b < Pow2(n) && forall k: nat :: k < n ==> (Bit(a, k) <==> Bit(b, k))
    ensures a == b
    decreases n
  {
    if n > 0 {
      forall k: nat | k < n - 1
        ensures Bit(a / 2, k) <==> Bit(b / 2, k)
      {
        assert Bit(a, k + 1) <==> Bit(b, k + 1);
      }
      BitsDecide(a / 2, b / 2, n - 1);
      assert Bit(a, 0) <==> Bit(b, 0);
    }
  }

  lemma {:induction false} AndBit(a: nat, b: nat, k: nat)
    ensures Bit(BitAnd(a, b), k) <==> Bit(a, k) && Bit(b, k)
    decreases k
  {
    if a == 0 || b == 0 {
      ZeroBit(k);
    } else if k > 0 {
      AndBit(a / 2, b / 2, k - 1);
    }
  }

  lemma {:induction false} ZeroBit(k: nat)
    ensures !Bit(0, k)
    decreases k
  {
    if k > 0 {
      ZeroBit(k - 1);
    }
  }

  lemma {:induction false} OrBit(n: nat, a: nat, b: nat, k: nat)
    requires a < Pow2(n) && b < Pow2(n)
    ensures Bit(BitOr(n, a, b), k) <==> Bit(a, k) || Bit(b, k)
    decreases n
  {
    if n == 0 {
      ZeroBit(k);
    } else if k > 0 {
      OrBit(n - 1, a / 2, b / 2, k - 1);
    }
  }

  // ----- shifts -----

  lemma {:induction false} TimesBit(a: nat, n: nat, k: nat)
    ensures Bit(a * Pow2(n), k) <==> k >= n && Bit(a, k - n)
    decreases n
  {
    if n > 0 {
      var y := a * Pow2(n - 1);
      assert a * Pow2(n) == 2 * y;
      if k > 0 {
        TimesBit(a, n - 1, k - 1);
      }
    }
  }

  /** Cutting a number off at n bits keeps those below. */
  lemma {:induction false} CutBit(x: nat, n: nat, k: nat)
    requires k < n
    ensures Bit(x % Pow2(n), k) <==> Bit(x, k)
    decreases k
  {
    CutHalf(x, Pow2(n - 1), Pow2(n));
    if k > 0 {
      CutBit(x / 2, n - 1, k - 1);
    }
  }

  lemma CutHalf(x: nat, p: nat, m: nat)
    requires p > 0 && m == 2 * p
    ensures (x % m) / 2 == (x / 2) % p && (x % m) % 2 == x % 2
  {
    hide *;
    var q, r := Euclid(x, m);
    Doubled(q, p, m);
    HalfPlaces(x, q, p, r);
  }

  lemma HalfPlaces(x: nat, q: nat, p: nat, r: nat)
    requires p > 0 && x == 2 * (q * p) + r && r < 2 * p
    ensures (x / 2) % p == r / 2 && x % 2 == r % 2
  {
    var t := q * p;
    HalfOf(x, t, r);
    EuclidOnly(x / 2, q, p, r / 2);
  }

  lemma Euclid(x: nat, m: nat) returns (q: nat, r: nat)
    requires m > 0
    ensures x == q * m + r && r < m && r == x % m
  {
    q, r := x / m, x % m;
  }

  lemma HalfOf(x: nat, t: nat, r: nat)
    requires x == 2 * t + r
    ensures x / 2 == t + r / 2 && x % 2 == r % 2
  {
  }

  lemma Doubled(q: nat, p: nat, m: nat)
    requires m == 2 * p
    ensures q * m == 2 * (q * p)
  {
  }

  /** Quotient and remainder are the only ones. */
  lemma EuclidOnly(x: int, q: int, p: nat, r: nat)
    requires p > 0 && x == q * p + r && r < p
    ensures x / p == q && x % p == r
  {
    var d := x / p - q;
    assert x == x / p * p + x % p;
    assert d * p == r - x % p by { assert (x / p - q) * p == x / p * p - q * p; }
    if d >= 1 {
      AtLeast(d, p);
    }
  }

  lemma AtLeast(d: nat, p: nat)
    requires d >= 1
    ensures d * p >= p
  {
    assert d * p == (d - 1) * p + p;
  }

  lemma {:induction false} HighBit(x: nat, n: nat, k: nat)
    requires x < Pow2(n) && k >= n
    ensures !Bit(x, k)
    decreases k
  {
    if n == 0 {
      ZeroBit(k);
    } else {
      HighBit(x / 2, n - 1, k - 1);
    }
  }

  /** Adding 2 to the n sets bit n. */
  lemma {:induction false} TopBit(x: nat, n: nat, k: nat)
    requires x < Pow2(n)
    ensures Bit(x + Pow2(n), k) <==> k == n || Bit(x, k)
    decreases n
  {
    if n == 0 {
      ZeroBit(k);
      if k > 0 {
        ZeroBit(k - 1);
      }
    } else if k > 0 {
      assert (x + Pow2(n)) / 2 == x / 2 + Pow2(n - 1);
      TopBit(x / 2, n - 1, k - 1);
    }
  }

  lemma Pow2Of63()
    ensures Pow2(63) == TWO63
  {
    Pow2Of64();
  }

  /** Halving a signed word moves every bit down by one and keeps the sign. */
  lemma HalfBit(z: int, k: nat)
    requires -TWO63 <= z < TWO63 && k < 64
    ensures -TWO63 <= z / 2 < TWO63
    ensures Bit(Wrap(z / 2), k) <==> Bit(Wrap(z), if k < 63 then k + 1 else 63)
  {
    Pow2Of63();
    var w := Wrap(z);
    if z >= 0 {
      assert w == z && Wrap(z / 2) == z / 2;
      HighBit(z, 63, 63);
      HighBit(z / 2, 63, 63);
    } else {
      assert w == z + TWO64 && Wrap(z / 2) == w / 2 + TWO63;
      TopBit(w / 2, 63, k);
      TopBit(w - TWO63, 63, 63);
    }
    assert k < 63 ==> (Bit(w, k + 1) <==> Bit(w / 2, k));
  }

  lemma QuotientHalf(z: int, n: nat)
    ensures z / Pow2(n + 1) == z / Pow2(n) / 2
  {
    var p := Pow2(n);
    var q, r := z / p, z % p;
    assert z == q * p + r;
    assert q == q / 2 * 2 + q % 2;
    var s := q % 2 * p + r;
    assert z == q / 2 * (2 * p) + s by {
      assert q * p == (q / 2 * 2) * p + q % 2 * p;
      assert (q / 2 * 2) * p == q / 2 * (2 * p);
    }
    assert 0 <= s < 2 * p;
    EuclidOnly(z, q / 2, 2 * p, s);
  }

  /** Dividing a signed word by 2 to the n moves every bit down by n and fills up with the sign. */
  lemma {:induction false} SignedShiftBit(a: Word, n: nat, k: nat)
    requires n < 64 && k < 64
    ensures -TWO63 <= Signed(a) / Pow2(n) < TWO63
    ensures Bit(Wrap(Signed(a) / Pow2(n)), k) <==> Bit(a, if k + n < 64 then k + n else 63)
    decreases n
  {
    if n == 0 {
      assert Pow2(0) == 1 && Wrap(Signed(a)) == a;
    } else {
      QuotientHalf(Signed(a), n - 1);
      var z := Signed(a) / Pow2(n - 1);
      SignedShiftBit(a, n - 1, if k < 63 then k + 1 else 63);
      HalfBit(z, k);
    }
  }

  /** The four operators on bits: what each bit of the result is. */
  lemma BitwiseMeans(a: Word, b: Word, k: nat)
    requires k < 64
    ensures Bit(BitAnd(a, b), k) <==> Bit(a, k) && Bit(b, k)
    ensures Bit(WordOr(a, b), k) <==> Bit(a, k) || Bit(b, k)
    ensures Bit(Wrap(a * Pow2(b % 64)), k) <==> k >= b % 64 && Bit(a, k - b % 64)
    ensures Bit(Wrap(Signed(a) / Pow2(b % 64)), k) <==> Bit(a, if k + b % 64 < 64 then k + b % 64 else 63)
  {
    hide Bit, BitAnd, BitOr, Pow2, Signed;
    Pow2Of64();
    AndBit(a, b, k);
    OrBit(64, a, b, k);
    TimesBit(a, b % 64, k);
    CutBit(a * Pow2(b % 64), 64, k);
    SignedShiftBit(a, b % 64, k);
  }
}
