/** Printing expressions with as few parentheses as the grammar allows, and reading them back. */
module Printing {
  import opened Ast
  import opened Expressions
  import Tok = Tokens
  import L = Lexing

  /** A keyword, an operator or a separator, as the lexer makes it. */
  function Mark(kind: Tok.Kind): Tok.Token {
    Tok.Token(kind, L.KeywordText(kind), 0)
  }

  /** The tokens of a tree. */
  function Yield(t: Tree): (s: seq<Tok.Token>)
    ensures |s| == Size(t)
  {
    match t
    case Leaf(tok) => [tok]
    case Index(tok, e, closed) => [tok, Mark(Tok.OBracket)] + Yield(e) + Closing(Tok.CBracket, closed)
    case Paren(e, closed) => [Mark(Tok.OPren)] + Yield(e) + Closing(Tok.CPren, closed)
    case Call(tok, args) => [tok, Mark(Tok.OPren)] + YieldAll(args) + [Mark(Tok.CPren)]
    case Prefix(tok, x) => [tok] + Yield(x)
    case Infix(l, tok, r) => Yield(l) + [tok] + Yield(r)
  }

  function Closing(kind: Tok.Kind, closed: bool): (s: seq<Tok.Token>)
    ensures |s| == One(closed)
  {
    if closed then [Mark(kind)] else []
  }

  function YieldAll(ts: Trees): (s: seq<Tok.Token>)
    ensures |s| == SizeAll(ts)
  {
    match ts
    case NoTrees => []
    case MoreTrees(e, comma, next) => Yield(e) + Closing(Tok.Comma, comma) + YieldAll(next)
  }

  /** The tokens that end an expression are no operators, and neither are opening ones. */
  predicate Sane(g: Grammar) {
    && g.prec(Tok.CPren) == 0 && g.prec(Tok.CBracket) == 0 && g.prec(Tok.Comma) == 0
    && g.prec(Tok.OPren) <= 0 && g.prec(Tok.OBracket) <= 0
  }

  /** The tree needs no more parentheses than it has: at threshold q, for any continuation that
      `CanFollow` allows. */
  predicate Shaped(g: Grammar, t: Tree, q: int)
    decreases t
  {
    match t
    case Leaf(tok) => !tok.kind.OPren? && !UnaryOp(tok.kind)
    case Index(tok, e, closed) => closed && !tok.kind.OPren? && !UnaryOp(tok.kind) && Shaped(g, e, 0)
    case Paren(e, closed) => closed && Shaped(g, e, 0)
    case Call(tok, args) => tok.kind.Identifier? && ShapedAll(g, args)
    case Prefix(tok, x) => UnaryOp(tok.kind) && !x.Infix? && Shaped(g, x, 0)
    case Infix(l, tok, r) =>
      var k := g.prec(tok.kind);
      && 0 < k && q <= k
      && Shaped(g, l, q) && Shaped(g, r, Right(g, k))
      && (l.Infix? ==> k < Right(g, g.prec(l.tok.kind)))
  }

  /** Commas between the arguments, none behind the last. */
  predicate ShapedAll(g: Grammar, ts: Trees)
    decreases ts
  {
    match ts
    case NoTrees => true
    case MoreTrees(e, comma, next) =>
      Shaped(g, e, 0) && First(e).kind != Tok.CPren && comma == next.MoreTrees? && ShapedAll(g, next)
  }

  /** The first token. */
  function First(t: Tree): Tok.Token {
    match t
    case Leaf(tok) => tok
    case Index(tok, _, _) => tok
    case Paren(_, _) => Mark(Tok.OPren)
    case Call(tok, _) => tok
    case Prefix(tok, _) => tok
    case Infix(l, _, _) => First(l)
  }

  lemma {:induction false} FirstIs(t: Tree)
    ensures Yield(t)[0] == First(t)
    decreases t
  {
    match t
    case Infix(l, _, _) => FirstIs(l);
    case _ =>
  }

  /** What may stand behind the tree. */
  predicate CanFollow(g: Grammar, toks: seq<Tok.Token>, j: nat, t: Tree) {
    && j < |toks| && !toks[j].kind.OPren? && !toks[j].kind.OBracket?
    && (t.Infix? ==> Stops(g, toks, j, Right(g, g.prec(t.tok.kind))))
  }

  predicate TokensAt(toks: seq<Tok.Token>, i: nat, part: seq<Tok.Token>) {
    i + |part| <= |toks| && toks[i..i + |part|] == part
  }

  lemma AtSum(toks: seq<Tok.Token>, i: nat, a: seq<Tok.Token>, b: seq<Tok.Token>)
    requires TokensAt(toks, i, a + b)
    ensures TokensAt(toks, i, a) && TokensAt(toks, i + |a|, b)
  {
    assert toks[i..i + |a|] == (a + b)[..|a|];
    assert toks[i + |a|..i + |a| + |b|] == (a + b)[|a|..];
  }

  lemma AtThree(toks: seq<Tok.Token>, i: nat, a: seq<Tok.Token>, b: seq<Tok.Token>, c: seq<Tok.Token>)
    requires TokensAt(toks, i, a + b + c)
    ensures TokensAt(toks, i, a) && TokensAt(toks, i + |a|, b) && TokensAt(toks, i + |a| + |b|, c)
  {
    hide TokensAt;
    AtSum(toks, i, a + b, c);
    AtSum(toks, i, a, b);
  }

  lemma AtOne(toks: seq<Tok.Token>, i: nat, part: seq<Tok.Token>, k: nat)
    requires TokensAt(toks, i, part) && k < |part|
    ensures i + k < |toks| && toks[i + k] == part[k]
  {
    assert toks[i..i + |part|][k] == part[k];
  }

  /** A shaped tree stands where its tokens stand. */
  lemma {:induction false} YieldReads(g: Grammar, toks: seq<Tok.Token>, i: nat, t: Tree, q: int)
    requires Sane(g) && Shaped(g, t, q) && TokensAt(toks, i, Yield(t)) && CanFollow(g, toks, i + Size(t), t)
    ensures Reads(g, toks, i, t, q)
    decreases t, 2
  {
    hide TokensAt, Yield, Stops, Reads, Shaped, CanFollow;
    match t
    case Leaf(_) => LeafReadsBack(g, toks, i, t, q);
    case Index(_, _, _) => IndexReadsBack(g, toks, i, t, q);
    case Paren(_, _) => ParenReadsBack(g, toks, i, t, q);
    case Call(_, _) => CallReadsBack(g, toks, i, t, q);
    case Prefix(_, _) => PrefixReadsBack(g, toks, i, t, q);
    case Infix(l, tok, r) =>
      YieldDef(t);
      InfixReadsBack(g, toks, i, l, tok, r, q);
  }

  lemma LeafReadsBack(g: Grammar, toks: seq<Tok.Token>, i: nat, t: Tree, q: int)
    requires t.Leaf? && Shaped(g, t, q) && TokensAt(toks, i, Yield(t)) && CanFollow(g, toks, i + 1, t)
    ensures Reads(g, toks, i, t, q)
  {
    hide TokensAt, Stops;
    AtOne(toks, i, [t.tok], 0);
  }

  lemma {:induction false} PrefixReadsBack(g: Grammar, toks: seq<Tok.Token>, i: nat, t: Tree, q: int)
    requires Sane(g) && t.Prefix? && Shaped(g, t, q) && TokensAt(toks, i, Yield(t))
      && CanFollow(g, toks, i + Size(t), t)
    ensures Reads(g, toks, i, t, q)
    decreases t, 1
  {
    hide TokensAt, Yield, Stops;
    YieldDef(t);
    AtSum(toks, i, [t.tok], Yield(t.operand));
    AtOne(toks, i, [t.tok], 0);
    YieldReads(g, toks, i + 1, t.operand, 0);
  }

  lemma {:induction false} IndexReadsBack(g: Grammar, toks: seq<Tok.Token>, i: nat, t: Tree, q: int)
    requires Sane(g) && t.Index? && Shaped(g, t, q) && TokensAt(toks, i, Yield(t))
    ensures Reads(g, toks, i, t, q)
    decreases t, 1
  {
    hide TokensAt, Yield, Stops, Closes, Reads;
    YieldDef(t);
    AtThree(toks, i, [t.tok, Mark(Tok.OBracket)], Yield(t.inner), [Mark(Tok.CBracket)]);
    AtOne(toks, i, [t.tok, Mark(Tok.OBracket)], 0);
    AtOne(toks, i, [t.tok, Mark(Tok.OBracket)], 1);
    InnerReads(g, toks, i + 2, t.inner, Tok.CBracket);
    IndexStands(g, toks, i, t, q);
  }

  lemma IndexStands(g: Grammar, toks: seq<Tok.Token>, i: nat, t: Tree, q: int)
    requires t.Index? && Solid(toks, i) && toks[i] == t.tok && toks[i + 1].kind.OBracket?
    requires Reads(g, toks, i + 2, t.inner, 0) && Stops(g, toks, i + 2 + Size(t.inner), 0)
    requires Closes(toks, i + 2 + Size(t.inner), Tok.CBracket, t.closed)
    ensures Reads(g, toks, i, t, q)
  {
    hide Stops, Closes, Solid, Size;
  }

  lemma {:induction false} ParenReadsBack(g: Grammar, toks: seq<Tok.Token>, i: nat, t: Tree, q: int)
    requires Sane(g) && t.Paren? && Shaped(g, t, q) && TokensAt(toks, i, Yield(t))
    ensures Reads(g, toks, i, t, q)
    decreases t, 1
  {
    hide TokensAt, Yield, Stops;
    YieldDef(t);
    AtThree(toks, i, [Mark(Tok.OPren)], Yield(t.inner), [Mark(Tok.CPren)]);
    AtOne(toks, i, [Mark(Tok.OPren)], 0);
    InnerReads(g, toks, i + 1, t.inner, Tok.CPren);
  }

  lemma {:induction false} CallReadsBack(g: Grammar, toks: seq<Tok.Token>, i: nat, t: Tree, q: int)
    requires Sane(g) && t.Call? && Shaped(g, t, q) && TokensAt(toks, i, Yield(t))
    ensures Reads(g, toks, i, t, q)
    decreases t, 1
  {
    hide TokensAt, Yield, Stops, ReadsAll;
    YieldDef(t);
    AtThree(toks, i, [t.tok, Mark(Tok.OPren)], YieldAll(t.args), [Mark(Tok.CPren)]);
    AtOne(toks, i, [t.tok, Mark(Tok.OPren)], 0);
    AtOne(toks, i, [t.tok, Mark(Tok.OPren)], 1);
    AtOne(toks, i + 2 + SizeAll(t.args), [Mark(Tok.CPren)], 0);
    YieldReadsAll(g, toks, i + 2, t.args);
  }

  lemma YieldDef(t: Tree)
    ensures t.Leaf? ==> Yield(t) == [t.tok]
    ensures t.Index? && t.closed ==>
              Yield(t) == [t.tok, Mark(Tok.OBracket)] + Yield(t.inner) + [Mark(Tok.CBracket)]
    ensures t.Paren? && t.closed ==> Yield(t) == [Mark(Tok.OPren)] + Yield(t.inner) + [Mark(Tok.CPren)]
    ensures t.Call? ==> Yield(t) == [t.tok, Mark(Tok.OPren)] + YieldAll(t.args) + [Mark(Tok.CPren)]
    ensures t.Prefix? ==> Yield(t) == [t.tok] + Yield(t.operand)
    ensures t.Infix? ==> Yield(t) == Yield(t.l) + [t.tok] + Yield(t.r)
  {
  }

  /** An expression up to a closing token. */
  lemma {:induction false} InnerReads(g: Grammar, toks: seq<Tok.Token>, i: nat, e: Tree, kind: Tok.Kind)
    requires Sane(g) && Shaped(g, e, 0) && TokensAt(toks, i, Yield(e)) && TokensAt(toks, i + Size(e), [Mark(kind)])
    requires kind.CPren? || kind.CBracket?
    ensures Reads(g, toks, i, e, 0) && Stops(g, toks, i + Size(e), 0) && Closes(toks, i + Size(e), kind, true)
    decreases e, 3
  {
    hide TokensAt, Yield, Shaped, Reads;
    AtOne(toks, i + Size(e), [Mark(kind)], 0);
    YieldReads(g, toks, i, e, 0);
  }

  lemma {:induction false} InfixReadsBack(g: Grammar, toks: seq<Tok.Token>, i: nat, l: Tree, tok: Tok.Token, r: Tree,
                                          q: int)
    requires Sane(g) && Shaped(g, Infix(l, tok, r), q) && TokensAt(toks, i, Yield(l) + [tok] + Yield(r))
    requires CanFollow(g, toks, i + Size(l) + 1 + Size(r), Infix(l, tok, r))
    ensures Reads(g, toks, i, Infix(l, tok, r), q)
    decreases Infix(l, tok, r), 0
  {
    hide TokensAt, Yield, Reads;
    AtThree(toks, i, Yield(l), [tok], Yield(r));
    var j := i + Size(l);
    AtOne(toks, j, [tok], 0);
    YieldReads(g, toks, i, l, q);
    RightStops(g, toks, j + 1 + Size(r), tok, r);
    YieldReads(g, toks, j + 1, r, Right(g, g.prec(tok.kind)));
    InfixReads(g, toks, i, l, r, q);
  }

  /** What stops the whole stops its right operand. */
  lemma RightStops(g: Grammar, toks: seq<Tok.Token>, j: nat, tok: Tok.Token, r: Tree)
    requires Stops(g, toks, j, Right(g, g.prec(tok.kind)))
    requires r.Infix? ==> Right(g, g.prec(tok.kind)) <= g.prec(r.tok.kind)
    ensures r.Infix? ==> Stops(g, toks, j, Right(g, g.prec(r.tok.kind)))
  {
  }

  lemma {:induction false} YieldReadsAll(g: Grammar, toks: seq<Tok.Token>, i: nat, ts: Trees)
    requires Sane(g) && ShapedAll(g, ts) && TokensAt(toks, i, YieldAll(ts))
    requires i + SizeAll(ts) < |toks| && toks[i + SizeAll(ts)].kind.CPren?
    ensures ReadsAll(g, toks, i, ts)
    decreases ts
  {
    hide TokensAt, Yield, Reads, Shaped, Stops;
    match ts
    case NoTrees =>
    case MoreTrees(e, comma, next) =>
      AtThree(toks, i, Yield(e), Closing(Tok.Comma, comma), YieldAll(next));
      FirstIs(e);
      AtOne(toks, i, Yield(e), 0);
      var j := i + Size(e);
      if comma {
        AtOne(toks, j, [Mark(Tok.Comma)], 0);
      }
      ArgStops(g, toks, j, e);
      YieldReads(g, toks, i, e, 0);
      YieldReadsAll(g, toks, j + One(comma), next);
  }

  lemma ArgStops(g: Grammar, toks: seq<Tok.Token>, j: nat, e: Tree)
    requires Sane(g) && Shaped(g, e, 0) && j < |toks| && (toks[j].kind.Comma? || toks[j].kind.CPren?)
    ensures Stops(g, toks, j, 0) && CanFollow(g, toks, j, e)
  {
  }

  // ----- printing -----

  /** The tree of an index into an atom. */
  predicate IsIndexed(e: Expr) {
    && e.Unary? && e.op.Mul? && e.node.Binary? && e.node.bop.Add?
    && e.node.left.Binary? && e.node.left.bop.Mul? && e.node.left.right == Eight()
    && e.node.right.Unary? && e.node.right.op.BitAnd? && e.node.right.node.Atom?
  }

  /** What can be printed: literals and names as atoms, operators of the grammar as operators. */
  predicate Printable(g: Grammar, e: Expr) {
    match e
    case Atom(kind, _, _) => kind.IntLit? || kind.StrLit? || kind.Identifier?
    case Unary(op, x) =>
      if IsIndexed(e) then Printable(g, x.right.node) && Printable(g, x.left.left)
      else UnaryOp(op) && Printable(g, x)
    case Binary(l, op, r) => g.prec(op) > 0 && Printable(g, l) && Printable(g, r)
    case FunctionCall(_, args) => PrintableAll(g, args)
  }

  predicate PrintableAll(g: Grammar, es: Exprs) {
    match es
    case NoExprs => true
    case MoreExprs(e, next) => Printable(g, e) && PrintableAll(g, next)
  }

  /** The tree of `e` with parentheses only where threshold q or a neighbour asks for them. */
  function Conc(g: Grammar, e: Expr, q: int): Tree
    decreases e, 1
  {
    match e
    case Atom(kind, value, n) => Leaf(Tok.Token(kind, value, n))
    case Unary(op, x) =>
      if IsIndexed(e) then ConcIndex(g, x.right.node, x.left.left) else ConcPrefix(op, Conc(g, x, 0))
    case Binary(l, op, r) =>
      if g.prec(op) < q then Paren(ConcBinary(g, l, op, r, 0), true) else ConcBinary(g, l, op, r, q)
    case FunctionCall(name, args) => Call(Tok.Token(Tok.Identifier, name, 0), ConcAll(g, args))
  }

  function ConcPrefix(op: Tok.Kind, c: Tree): Tree {
    Prefix(Mark(op), if c.Infix? then Paren(c, true) else c)
  }

  function ConcIndex(g: Grammar, x: Expr, e: Expr): Tree
    requires x.Atom?
    decreases e, 2
  {
    Index(Tok.Token(x.kind, x.value, x.intLit), Conc(g, e, 0), true)
  }

  function ConcBinary(g: Grammar, l: Expr, op: Tok.Kind, r: Expr, q: int): (t: Tree)
    ensures t.Infix?
    decreases Binary(l, op, r), 0
  {
    Infix(ConcLeft(g, l, op, q), Mark(op), Conc(g, r, Right(g, g.prec(op))))
  }

  /** A left operand that would take `op` for its own is put in parentheses. */
  function ConcLeft(g: Grammar, l: Expr, op: Tok.Kind, q: int): Tree
    decreases l, 2
  {
    var c := Conc(g, l, q);
    if c.Infix? && g.prec(op) >= Right(g, g.prec(c.tok.kind)) then Paren(Conc(g, l, 0), true) else c
  }

  function ConcAll(g: Grammar, es: Exprs): Trees
    decreases es, 1
  {
    match es
    case NoExprs => NoTrees
    case MoreExprs(e, next) => MoreTrees(Conc(g, e, 0), next.MoreExprs?, ConcAll(g, next))
  }

  /** An index is printed as an index. */
  lemma ConcIndexed(g: Grammar, x: Expr, e: Expr, q: int)
    requires x.Atom?
    ensures Conc(g, Indexed(x, e), q) == Index(Tok.Token(x.kind, x.value, x.intLit), Conc(g, e, 0), true)
  {
    assert IsIndexed(Indexed(x, e));
  }

  lemma {:induction false} ConcMeans(g: Grammar, e: Expr, q: int)
    ensures Abs(Conc(g, e, q)) == e
    decreases e, 1
  {
    match e
    case Atom(_, _, _) =>
    case Unary(_, x) =>
      if IsIndexed(e) {
        ConcMeans(g, x.left.left, 0);
      } else {
        ConcMeans(g, x, 0);
      }
    case Binary(l, op, r) => ConcBinaryMeans(g, l, op, r, if g.prec(op) < q then 0 else q);
    case FunctionCall(_, args) => ConcAllMeans(g, args);
  }

  lemma {:induction false} ConcBinaryMeans(g: Grammar, l: Expr, op: Tok.Kind, r: Expr, q: int)
    ensures Abs(ConcBinary(g, l, op, r, q)) == Binary(l, op, r)
    decreases Binary(l, op, r), 0
  {
    hide Conc, ConcLeft, Right, Mark, Abs, AbsAll;
    ConcLeftMeans(g, l, op, q);
    ConcMeans(g, r, Right(g, g.prec(op)));
    AbsInfix(ConcLeft(g, l, op, q), op, Conc(g, r, Right(g, g.prec(op))));
  }

  lemma AbsInfix(l: Tree, op: Tok.Kind, r: Tree)
    ensures Abs(Infix(l, Mark(op), r)) == Binary(Abs(l), op, Abs(r))
  {
  }

  lemma {:induction false} ConcLeftMeans(g: Grammar, l: Expr, op: Tok.Kind, q: int)
    ensures Abs(ConcLeft(g, l, op, q)) == l
    decreases l, 2
  {
    hide Conc;
    ConcMeans(g, l, q);
    ConcMeans(g, l, 0);
  }

  lemma {:induction false} ConcAllMeans(g: Grammar, es: Exprs)
    ensures AbsAll(ConcAll(g, es)) == es
    decreases es
  {
    match es
    case NoExprs =>
    case MoreExprs(e, next) =>
      ConcMeans(g, e, 0);
      ConcAllMeans(g, next);
  }

  /** What the printed form of an expression begins with. */
  predicate Opens(kind: Tok.Kind) {
    kind.IntLit? || kind.StrLit? || kind.Identifier? || kind.OPren? || UnaryOp(kind)
  }

  lemma {:induction false} ConcShaped(g: Grammar, e: Expr, q: int)
    requires Printable(g, e)
    ensures Shaped(g, Conc(g, e, q), q) && Opens(First(Conc(g, e, q)).kind)
    ensures Conc(g, e, q).Infix? ==> g.prec(Conc(g, e, q).tok.kind) > 0
    decreases e, 1
  {
    match e
    case Atom(_, _, _) =>
    case Unary(_, x) =>
      if IsIndexed(e) {
        ConcShaped(g, x.left.left, 0);
      } else {
        ConcShaped(g, x, 0);
      }
    case Binary(l, op, r) => ConcBinaryShaped(g, l, op, r, if g.prec(op) < q then 0 else q);
    case FunctionCall(_, args) => ConcAllShaped(g, args);
  }

  lemma {:induction false} ConcBinaryShaped(g: Grammar, l: Expr, op: Tok.Kind, r: Expr, q: int)
    requires Printable(g, Binary(l, op, r)) && q <= g.prec(op)
    ensures Shaped(g, ConcBinary(g, l, op, r, q), q) && Opens(First(ConcBinary(g, l, op, r, q)).kind)
    decreases Binary(l, op, r), 0
  {
    hide Conc;
    ConcShaped(g, l, q);
    ConcShaped(g, l, 0);
    ConcShaped(g, r, Right(g, g.prec(op)));
  }

  lemma {:induction false} ConcAllShaped(g: Grammar, es: Exprs)
    requires PrintableAll(g, es)
    ensures ShapedAll(g, ConcAll(g, es))
    decreases es
  {
    match es
    case NoExprs =>
    case MoreExprs(e, next) =>
      ConcShaped(g, e, 0);
      ConcAllShaped(g, next);
  }

  function PrintExpr(g: Grammar, e: Expr): seq<Tok.Token> {
    Yield(Conc(g, e, 0))
  }

  lemma {:induction false} ShapedCloses(g: Grammar, t: Tree, q: int)
    requires Shaped(g, t, q)
    ensures Missed(t) == 0
    decreases t
  {
    match t
    case Leaf(_) =>
    case Index(_, e, _) => ShapedCloses(g, e, 0);
    case Paren(e, _) => ShapedCloses(g, e, 0);
    case Call(_, args) => ShapedAllCloses(g, args);
    case Prefix(_, x) => ShapedCloses(g, x, 0);
    case Infix(l, tok, r) =>
      ShapedCloses(g, l, q);
      ShapedCloses(g, r, Right(g, g.prec(tok.kind)));
  }

  lemma {:induction false} ShapedAllCloses(g: Grammar, ts: Trees)
    requires ShapedAll(g, ts)
    ensures MissedAll(ts) == 0
    decreases ts
  {
    match ts
    case NoTrees =>
    case MoreTrees(e, _, next) =>
      ShapedCloses(g, e, 0);
      ShapedAllCloses(g, next);
  }

  /** Print, then parse: any expression comes back, whatever the precedences and associativities,
      when a token that ends expressions stands behind it. */
  lemma PrintThenParse(g: Grammar, toks: seq<Tok.Token>, i: nat, e: Expr)
    requires Sane(g) && Printable(g, e) && TokensAt(toks, i, PrintExpr(g, e))
    requires
      var j := i + |PrintExpr(g, e)|;
      j < |toks| && g.prec(toks[j].kind) == 0 && !toks[j].kind.OPren? && !toks[j].kind.OBracket?
    ensures
      var r := ParseExpr(g, toks, i, 0);
      r.Parsed? && Abs(r.tree) == e && r.at == i + |PrintExpr(g, e)| && Missed(r.tree) == 0
  {
    hide ParseExpr, Reads, Shaped, TokensAt, Yield, Conc, Printable;
    var t := Conc(g, e, 0);
    ConcShaped(g, e, 0);
    ConcMeans(g, e, 0);
    YieldReads(g, toks, i, t, 0);
    ExprComplete(g, toks, i, t, 0);
    ShapedCloses(g, t, 0);
  }

  // ----- only the parentheses needed -----

  lemma ConcOf(g: Grammar, e: Expr, q: int)
    ensures e.Binary? ==>
      Conc(g, e, q) == if g.prec(e.bop) < q then Paren(ConcBinary(g, e.left, e.bop, e.right, 0), true)
                       else ConcBinary(g, e.left, e.bop, e.right, q)
    ensures e.Binary? ==> ConcBinary(g, e.left, e.bop, e.right, q).tok.kind == e.bop
    ensures !e.Binary? ==> Conc(g, e, q) == Conc(g, e, 0)
  {
  }

  /** Up to its own level, the threshold makes no difference to how an operation is printed. */
  lemma {:induction false} ThresholdFree(g: Grammar, l: Expr, op: Tok.Kind, r: Expr, q: int)
    requires 0 <= q <= g.prec(op) && Printable(g, l)
    ensures ConcBinary(g, l, op, r, q) == ConcBinary(g, l, op, r, 0)
    decreases l, 1
  {
    hide Conc, ConcLeft;
    LeftFree(g, l, op, q);
  }

  lemma {:induction false} LeftFree(g: Grammar, l: Expr, op: Tok.Kind, q: int)
    requires 0 <= q <= g.prec(op) && Printable(g, l)
    ensures ConcLeft(g, l, op, q) == ConcLeft(g, l, op, 0)
    decreases l, 0
  {
    hide Conc, ConcBinary;
    ConcOf(g, l, q);
    ConcOf(g, l, 0);
    if l.Binary? {
      ConcPositive(g, l);
      if g.prec(l.bop) >= q {
        ThresholdFree(g, l.left, l.bop, l.right, q);
      } else {
        assert g.prec(op) >= Right(g, g.prec(l.bop));
      }
    }
  }

  lemma ConcPositive(g: Grammar, l: Expr)
    requires Printable(g, l) && l.Binary?
    ensures g.prec(l.bop) > 0 && Printable(g, l.left)
  {
  }

  /** What a threshold costs: nothing, or one pair of parentheses. */
  lemma ThresholdCosts(g: Grammar, e: Expr, q: int)
    requires 0 <= q && Printable(g, e)
    ensures Size(Conc(g, e, 0)) <= Size(Conc(g, e, q)) <= Size(Conc(g, e, 0)) + 2
    ensures e.Binary? && g.prec(e.bop) >= q ==> Conc(g, e, q) == Conc(g, e, 0)
    ensures !e.Binary? ==> Conc(g, e, q) == Conc(g, e, 0)
  {
    hide ConcBinary, Conc;
    ConcOf(g, e, q);
    ConcOf(g, e, 0);
    if e.Binary? {
      ConcPositive(g, e);
      if g.prec(e.bop) >= q {
        ThresholdFree(g, e.left, e.bop, e.right, q);
      }
    }
  }

  lemma LeftCosts(g: Grammar, l: Expr, op: Tok.Kind)
    ensures Size(ConcLeft(g, l, op, 0)) <= Size(Conc(g, l, 0)) + 2
    ensures !l.Binary? || g.prec(op) < Right(g, g.prec(l.bop)) ==>
              Size(ConcLeft(g, l, op, 0)) <= Size(Conc(g, l, 0))
  {
  }

  /** No tree of the same expression that reads the same way is shorter than the printed one. */
  lemma {:induction false} FewestTokens(g: Grammar, t: Tree, q: int)
    requires 0 <= q && Shaped(g, t, q) && Printable(g, Abs(t))
    ensures Size(Conc(g, Abs(t), q)) <= Size(t)
    decreases Size(t), 1
  {
    hide Shaped, ConcBinary;
    match t
    case Leaf(_) =>
    case Index(_, _, _) => FewestIndex(g, t, q);
    case Paren(inner, _) =>
      ParenShaped(g, t, q);
      FewestTokens(g, inner, 0);
      ThresholdCosts(g, Abs(t), q);
    case Call(_, args) =>
      CallShaped(g, t, q);
      FewestAll(g, args);
    case Prefix(_, x) =>
      if IsIndexed(Abs(t)) {
        FewestSpelled(g, t, q);
      } else {
        FewestPrefix(g, t, q);
      }
    case Infix(l, tok, r) => FewestInfix(g, t, q);
  }

  lemma {:induction false} FewestIndex(g: Grammar, t: Tree, q: int)
    requires t.Index? && Shaped(g, t, q) && Printable(g, Abs(t))
    ensures Size(Conc(g, Abs(t), q)) <= Size(t)
    decreases Size(t), 0
  {
    hide ConcBinary;
    assert IsIndexed(Abs(t));
    FewestTokens(g, t.inner, 0);
  }

  /** A tree without the parentheses around it. */
  function Unwrapped(t: Tree): (u: Tree)
    ensures Abs(u) == Abs(t) && Size(u) <= Size(t) && !u.Paren?
    ensures t.Paren? && Missed(t) == 0 ==> Size(u) + 2 <= Size(t)
  {
    match t
    case Paren(e, _) => Unwrapped(e)
    case _ => t
  }

  lemma {:induction false} BareShaped(g: Grammar, t: Tree, q: int)
    requires 0 <= q && Shaped(g, t, q)
    ensures Shaped(g, Unwrapped(t), if t.Paren? then 0 else q)
    ensures t.Paren? ==> Size(Unwrapped(t)) + 2 <= Size(t)
    decreases t
  {
    match t
    case Paren(e, _) => BareShaped(g, e, 0);
    case _ =>
  }

  /** The address of an index, written out, is longer than the index. */
  lemma SpelledParts(g: Grammar, t: Tree, q: int) returns (u: Tree, k: int)
    requires t.Prefix? && 0 <= q && Shaped(g, t, q) && IsIndexed(Abs(t))
    ensures 0 <= k && Shaped(g, u, k) && Abs(u) == Abs(t).node.left.left && Size(u) + 3 <= Size(t)
  {
    hide Shaped, Right;
    PrefixShaped(g, t, q);
    var sum := Unwrapped(t.operand);
    BareShaped(g, t.operand, 0);
    InfixShaped(g, sum, 0);
    var product := Unwrapped(sum.l);
    BareShaped(g, sum.l, 0);
    InfixShaped(g, product, 0);
    u, k := product.l, 0;
  }

  lemma PrefixShaped(g: Grammar, t: Tree, q: int)
    requires t.Prefix? && Shaped(g, t, q)
    ensures !t.operand.Infix? && Shaped(g, t.operand, 0)
  {
  }

  lemma InfixShaped(g: Grammar, t: Tree, q: int)
    requires t.Infix? && Shaped(g, t, q)
    ensures Shaped(g, t.l, q)
  {
  }

  lemma {:induction false} FewestSpelled(g: Grammar, t: Tree, q: int)
    requires t.Prefix? && 0 <= q && Shaped(g, t, q) && Printable(g, Abs(t)) && IsIndexed(Abs(t))
    ensures Size(Conc(g, Abs(t), q)) <= Size(t)
    decreases Size(t), 0
  {
    hide Shaped, ConcBinary;
    var u, k := SpelledParts(g, t, q);
    FewestTokens(g, u, k);
    ThresholdCosts(g, Abs(u), k);
  }

  lemma ParenShaped(g: Grammar, t: Tree, q: int)
    requires t.Paren? && Shaped(g, t, q)
    ensures Shaped(g, t.inner, 0) && t.closed
  {
  }

  lemma CallShaped(g: Grammar, t: Tree, q: int)
    requires t.Call? && Shaped(g, t, q)
    ensures ShapedAll(g, t.args)
  {
  }

  lemma {:induction false} FewestAll(g: Grammar, ts: Trees)
    requires ShapedAll(g, ts) && PrintableAll(g, AbsAll(ts))
    ensures SizeAll(ConcAll(g, AbsAll(ts))) <= SizeAll(ts)
    decreases SizeAll(ts), 2
  {
    hide Shaped, Conc;
    match ts
    case NoTrees =>
    case MoreTrees(e, _, next) =>
      FewestTokens(g, e, 0);
      FewestAll(g, next);
  }

  lemma {:induction false} FewestPrefix(g: Grammar, t: Tree, q: int)
    requires t.Prefix? && 0 <= q && Shaped(g, t, q) && Printable(g, Abs(t)) && !IsIndexed(Abs(t))
    ensures Size(Conc(g, Abs(t), q)) <= Size(t)
    decreases Size(t), 0
  {
    hide ConcBinary;
    var x := t.operand;
    assert Size(t) == 1 + Size(x);
    if x.Paren? {
      assert Size(x) == 1 + Size(x.inner) + One(x.closed);
      FewestTokens(g, x.inner, 0);
    } else {
      FewestTokens(g, x, 0);
    }
  }

  lemma {:induction false} FewestInfix(g: Grammar, t: Tree, q: int)
    requires t.Infix? && 0 <= q && Shaped(g, t, q) && Printable(g, Abs(t))
    ensures Size(Conc(g, Abs(t), q)) <= Size(t)
    decreases Size(t), 0
  {
    hide ConcLeft, Right;
    var l, op, r := t.l, t.tok.kind, t.r;
    var k := g.prec(op);
    ThresholdFree(g, Abs(l), op, Abs(r), q);
    RightNotLess(g, k);
    FewestTokens(g, r, Right(g, k));
    LeftCosts(g, Abs(l), op);
    if l.Paren? {
      assert Size(l) == 1 + Size(l.inner) + One(l.closed);
      FewestTokens(g, l.inner, 0);
    } else {
      FewestTokens(g, l, q);
      ThresholdCosts(g, Abs(l), q);
    }
  }

  lemma RightNotLess(g: Grammar, k: int)
    ensures k <= Right(g, k) <= k + 1
  {
  }
}
