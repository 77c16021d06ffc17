/** The 64-bit machine word of B and the operations the IR can apply to it. */
module Words {

  const TWO63: int := 0x8000_0000_0000_0000
  const TWO64: int := 0x1_0000_0000_0000_0000

  type Word = x: int | 0 <= x < TWO64

  datatype Option<+T> = None | Some(value: T)

  /** The two-operand operators of the IR. */
  datatype BinOp =
    | Add | Sub | Mul | Div | Mod | And | Or | Shl | Shr
    | Eq | Ne | Gt | Ge | Lt | Le

  function Wrap(x: int): Word {
    x % TWO64
  }

  function Negate(w: Word): Word {
    Wrap(0 - w)
  }

  /** The two's-complement reading of a word. */
  function Signed(w: Word): int {
    if w < TWO63 then w else w - TWO64
  }

  function FromBool(b: bool): Word {
    if b then 1 else 0
  }

  function Pow2(n: nat): (p: nat)
    ensures p > 0
  {
    if n == 0 then 1 else 2 * Pow2(n - 1)
  }

  function BitAnd(a: nat, b: nat): (r: nat)
    ensures r <= a
  {
    if a == 0 || b == 0 then 0
    else 2 * BitAnd(a / 2, b / 2) + (if a % 2 == 1 && b % 2 == 1 then 1 else 0)
  }

  /** Bitwise or of two `k`-bit numbers. */
  function BitOr(k: nat, a: nat, b: nat): (r: nat)
    requires a < Pow2(k) && b < Pow2(k)
    ensures r < Pow2(k)
  {
    if k == 0 then 0
    else 2 * BitOr(k - 1, a / 2, b / 2) + (if a % 2 == 1 || b % 2 == 1 then 1 else 0)
  }

  lemma {:induction false} Pow2Sum(m: nat, n: nat)
    ensures Pow2(m + n) == Pow2(m) * Pow2(n)
  {
    if m != 0 {
      Pow2Sum(m - 1, n);
    }
  }

  lemma Pow2Of64()
    ensures Pow2(64) == TWO64
  {
    assert Pow2(4) == 16 by { assert Pow2(2) == 2 * Pow2(1) && Pow2(1) == 2 * Pow2(0); Pow2Sum(2, 2); }
    hide Pow2;
    assert Pow2(8) == 0x100 by { Pow2Sum(4, 4); }
    assert Pow2(16) == 0x1_0000 by { Pow2Sum(8, 8); }
    assert Pow2(32) == 0x1_0000_0000 by { Pow2Sum(16, 16); }
    Pow2Sum(32, 32);
  }

  function WordOr(a: Word, b: Word): Word {
    Pow2Of64();
    BitOr(64, a, b)
  }

  function Abs(x: int): nat {
    if x < 0 then -x else x
  }

  /** Division truncated toward zero. */
  function TruncDiv(a: int, b: int): int
    requires b != 0
  {
    if (a < 0) != (b < 0) then -(Abs(a) / Abs(b)) else Abs(a) / Abs(b)
  }

  /** True when dividing `a` by `b` has a 64-bit signed answer. */
  predicate Divides(a: Word, b: Word) {
    b != 0 && !(a == TWO63 && b == TWO64 - 1)
  }

  /** What an operator of B computes; `None` where the quotient does not exist. */
  function Apply(op: BinOp, a: Word, b: Word): Option<Word> {
    match op
    case Add => Some(Wrap(a + b))
    case Sub => Some(Wrap(a - b))
    case Mul => Some(Wrap(a * b))
    case Div =>
      if Divides(a, b) then Some(Wrap(TruncDiv(Signed(a), Signed(b)))) else None
    case Mod =>
      if Divides(a, b)
      then Some(Wrap(Signed(a) - Signed(b) * TruncDiv(Signed(a), Signed(b))))
      else None
    case And => Some(BitAnd(a, b))
    case Or => Some(WordOr(a, b))
    case Shl => Some(Wrap(a * Pow2(b % 64)))
    case Shr => Some(Wrap(Signed(a) / Pow2(b % 64)))
    case Eq => Some(FromBool(a == b))
    case Ne => Some(FromBool(a != b))
    case Gt => Some(FromBool(Signed(a) > Signed(b)))
    case Ge => Some(FromBool(Signed(a) >= Signed(b)))
    case Lt => Some(FromBool(Signed(a) < Signed(b)))
    case Le => Some(FromBool(Signed(a) <= Signed(b)))
  }
}
