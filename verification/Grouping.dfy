/** How the operators of B group, by the kinds of their tokens. */
module Grouping {
  import opened Ast
  import opened Expressions
  import opened Printing
  import opened Statements
  import opened RoundTrip
  import Tok = Tokens

  /** The binary operators, those that bind loosest first. */
  const LEVELS: seq<set<Tok.Kind>> := [
    {Tok.Assign},
    {Tok.BitOr},
    {Tok.BitAnd},
    {Tok.Lesser, Tok.Greater, Tok.LesserEqual, Tok.GreaterEqual},
    {Tok.Equal, Tok.NotEqual},
    {Tok.BitshiftL, Tok.BitshiftR},
    {Tok.Add, Tok.Sub},
    {Tok.Mul, Tok.Dev, Tok.Mod}
  ]

  /** The tokens that end an expression. */
  const ENDERS: set<Tok.Kind> := {Tok.Comma, Tok.CPren, Tok.CBracket, Tok.Semicolon}

  /** The tokens that stand before their operand. */
  const PREFIXES: set<Tok.Kind> := {Tok.Not, Tok.Add, Tok.Sub, Tok.Mul, Tok.Inc, Tok.Dec, Tok.BitAnd}

  /** The number in `get_op_prec` for the operators of level a; no operator has level 2 there. */
  function LevelNumber(a: nat): int {
    if a == 0 then 1 else a + 2
  }

  lemma PrecOf(kind: Tok.Kind, a: nat)
    requires a < |LEVELS|
    ensures kind in LEVELS[a] <==> Prec(kind) == LevelNumber(a)
  {
  }

  lemma PrecEnds(kind: Tok.Kind)
    ensures kind in ENDERS <==> Prec(kind) == 0
  {
  }

  lemma PrecUnknown(kind: Tok.Kind)
    requires kind !in ENDERS && forall a :: 0 <= a < |LEVELS| ==> kind !in LEVELS[a]
    ensures Prec(kind) < 0
  {
    hide Prec;
    PrecEnds(kind);
    PrecRange(kind);
    if Prec(kind) > 0 {
      PrecOf(kind, if Prec(kind) == 1 then 0 else Prec(kind) - 2);
    }
  }

  lemma PrecRange(kind: Tok.Kind)
    ensures Prec(kind) < 2 || 3 <= Prec(kind) <= 9
  {
  }

  /** `x o1 y o2 z`, for any operands and any two operators: the first operator takes the middle
      operand exactly when it stands further down in the list of levels, or when both are
      assignments. */
  lemma OperatorsGroup(toks: seq<Tok.Token>, i: nat, x: Tree, o1: Tok.Token, y: Tree, o2: Tok.Token, z: Tree,
                       a: nat, b: nat)
    requires a < |LEVELS| && b < |LEVELS| && o1.kind in LEVELS[a] && o2.kind in LEVELS[b]
    requires Operand(Trident(), x) && Operand(Trident(), y) && Operand(Trident(), z)
    requires TwoOperators(toks, i, x, o1, y, o2, z)
    ensures
      ParseExpr(Trident(), toks, i, 0)
      == Parsed(if a > b || (a == 0 && b == 0) then Infix(Infix(x, o1, y), o2, z) else Infix(x, o1, Infix(y, o2, z)),
                i + Size(x) + 1 + Size(y) + 1 + Size(z))
  {
    hide ParseExpr, TwoOperators, Operand, Prec;
    PrecOf(o1.kind, a);
    PrecOf(o2.kind, b);
    Groups(Trident(), toks, i, x, o1, y, o2, z) by { TridentSane(); }
  }

  lemma TridentSane()
    ensures Sane(Trident()) && Trident().prec(Tok.Semicolon) == 0
  {
  }

  /** Sums of products: `x + y * z` is `x + (y * z)` and `x * y + z` is `(x * y) + z`, for both additive
      and all three multiplicative operators. */
  lemma SumsOfProducts(toks: seq<Tok.Token>, i: nat, x: Tree, o1: Tok.Token, y: Tree, o2: Tok.Token, z: Tree)
    requires Operand(Trident(), x) && Operand(Trident(), y) && Operand(Trident(), z)
    requires TwoOperators(toks, i, x, o1, y, o2, z)
    ensures o1.kind in {Tok.Add, Tok.Sub} && o2.kind in {Tok.Mul, Tok.Dev, Tok.Mod} ==>
              ParseExpr(Trident(), toks, i, 0)
              == Parsed(Infix(x, o1, Infix(y, o2, z)), i + Size(x) + 1 + Size(y) + 1 + Size(z))
    ensures o1.kind in {Tok.Mul, Tok.Dev, Tok.Mod} && o2.kind in {Tok.Add, Tok.Sub} ==>
              ParseExpr(Trident(), toks, i, 0)
              == Parsed(Infix(Infix(x, o1, y), o2, z), i + Size(x) + 1 + Size(y) + 1 + Size(z))
  {
    hide ParseExpr, TwoOperators, Operand, Trident;
    if o1.kind in LEVELS[6] && o2.kind in LEVELS[7] {
      OperatorsGroup(toks, i, x, o1, y, o2, z, 6, 7);
    } else if o1.kind in LEVELS[7] && o2.kind in LEVELS[6] {
      OperatorsGroup(toks, i, x, o1, y, o2, z, 7, 6);
    }
  }

  /** Behind an operand an expression ends at four kinds of tokens, goes on at the operators, and any
      other token but an opening one ends the process. */
  lemma OperandEnds(toks: seq<Tok.Token>, i: nat, x: Tree, next: Tok.Token)
    requires Operand(Trident(), x) && TokensAt(toks, i, Yield(x) + [next])
    requires !next.kind.OPren? && !next.kind.OBracket?
    ensures next.kind in ENDERS ==> ParseExpr(Trident(), toks, i, 0) == Parsed(x, i + Size(x))
    ensures next.kind !in ENDERS && (forall a :: 0 <= a < |LEVELS| ==> next.kind !in LEVELS[a]) ==>
              ParseExpr(Trident(), toks, i, 0) == Lost
  {
    hide ParseExpr, TokensAt, Yield, Shaped, Size, Prec, Reads, Sane;
    AtSum(toks, i, Yield(x), [next]);
    AtOne(toks, i + Size(x), [next], 0);
    YieldReads(Trident(), toks, i, x, 0) by { TridentSane(); }
    SpineComplete(Trident(), toks, i, x, 0);
    PrecEnds(next.kind);
    if next.kind !in ENDERS && forall a :: 0 <= a < |LEVELS| ==> next.kind !in LEVELS[a] {
      PrecUnknown(next.kind);
    }
  }

  /** The seven prefix operators take the operand behind them; any other token but an opening
      parenthesis is an operand by itself. */
  lemma PrefixTakes(toks: seq<Tok.Token>, i: nat, tok: Tok.Token, x: Tree)
    ensures tok.kind in PREFIXES && Operand(Trident(), x) && TokensAt(toks, i, [tok] + Yield(x) + [Mark(Tok.Semicolon)])
            ==> ParseExpr(Trident(), toks, i, 0) == Parsed(Prefix(tok, x), i + 1 + Size(x))
    ensures tok.kind !in PREFIXES && !tok.kind.OPren? && TokensAt(toks, i, [tok] + [Mark(Tok.Semicolon)])
            ==> ParseExpr(Trident(), toks, i, 0) == Parsed(Leaf(tok), i + 1)
  {
    hide ParseExpr, TokensAt, Prec, Sane;
    TridentSane();
    if tok.kind in PREFIXES && Operand(Trident(), x) && TokensAt(toks, i, [tok] + Yield(x) + [Mark(Tok.Semicolon)]) {
      assert Yield(Prefix(tok, x)) == [tok] + Yield(x);
      TreeReads(Trident(), toks, i, Prefix(tok, x));
    }
    if tok.kind !in PREFIXES && !tok.kind.OPren? && TokensAt(toks, i, [tok] + [Mark(Tok.Semicolon)]) {
      assert Yield(Leaf(tok)) == [tok];
      TreeReads(Trident(), toks, i, Leaf(tok));
    }
  }
}
