/** Expressions in concrete form: what src/expr.c reads from a token list, for any table of
    precedences and any choice of associativities. */
module Expressions {
  import opened Ast
  import Tok = Tokens

  /** `prec` gives -1 to what is not an operator, 0 to what ends an expression, and otherwise the
      level of a binary operator; `left` says which levels group to the left. */
  datatype Grammar = Grammar(prec: Tok.Kind -> int, left: int -> bool)

  /** The threshold for the right operand of an operator of level k. */
  function Right(g: Grammar, k: int): int {
    if g.left(k) then k + 1 else k
  }

  predicate UnaryOp(kind: Tok.Kind) {
    kind.Not? || kind.Add? || kind.Sub? || kind.Mul? || kind.Inc? || kind.Dec? || kind.BitAnd?
  }

  /** A tree that remembers its tokens. `closed` is false where a closing token was expected and
      another token stood; then nothing was consumed. */
  datatype Tree =
    | Leaf(tok: Tok.Token)
    | Index(tok: Tok.Token, inner: Tree, closed: bool)
    | Paren(inner: Tree, closed: bool)
    | Call(tok: Tok.Token, args: Trees)
    | Prefix(tok: Tok.Token, operand: Tree)
    | Infix(l: Tree, tok: Tok.Token, r: Tree)

  /** Arguments, each with or without a comma behind it. */
  datatype Trees = NoTrees | MoreTrees(head: Tree, comma: bool, next: Trees)

  function One(b: bool): nat {
    if b then 1 else 0
  }

  /** The number of tokens of a tree. */
  function Size(t: Tree): (n: nat)
    ensures n > 0
  {
    match t
    case Leaf(_) => 1
    case Index(_, e, closed) => 2 + Size(e) + One(closed)
    case Paren(e, closed) => 1 + Size(e) + One(closed)
    case Call(_, args) => 3 + SizeAll(args)
    case Prefix(_, x) => 1 + Size(x)
    case Infix(l, _, r) => Size(l) + 1 + Size(r)
  }

  function SizeAll(ts: Trees): nat {
    match ts
    case NoTrees => 0
    case MoreTrees(e, comma, next) => Size(e) + One(comma) + SizeAll(next)
  }

  /** The syntax tree. */
  function Abs(t: Tree): Expr {
    match t
    case Leaf(tok) => Atom(tok.kind, tok.lexeme, tok.intLit)
    case Index(tok, e, _) => Indexed(Atom(tok.kind, tok.lexeme, tok.intLit), Abs(e))
    case Paren(e, _) => Abs(e)
    case Call(tok, args) => FunctionCall(tok.lexeme, AbsAll(args))
    case Prefix(tok, x) => Unary(tok.kind, Abs(x))
    case Infix(l, tok, r) => Binary(Abs(l), tok.kind, Abs(r))
  }

  function AbsAll(ts: Trees): Exprs {
    match ts
    case NoTrees => NoExprs
    case MoreTrees(e, _, next) => MoreExprs(Abs(e), AbsAll(next))
  }

  /** The number of closing tokens missed: each is one error message. */
  function Missed(t: Tree): nat {
    match t
    case Leaf(_) => 0
    case Index(_, e, closed) => Missed(e) + One(!closed)
    case Paren(e, closed) => Missed(e) + One(!closed)
    case Call(_, args) => MissedAll(args)
    case Prefix(_, x) => Missed(x)
    case Infix(l, _, r) => Missed(l) + Missed(r)
  }

  function MissedAll(ts: Trees): nat {
    match ts
    case NoTrees => 0
    case MoreTrees(e, _, next) => Missed(e) + MissedAll(next)
  }

  // ----- which trees stand where -----

  /** An expression at threshold q cannot go on at position j. */
  predicate Stops(g: Grammar, toks: seq<Tok.Token>, j: nat, q: int) {
    j < |toks| ==> var k := g.prec(toks[j].kind); k == 0 || 0 < k < q
  }

  /** What `closed` records of the token at j. */
  predicate Closes(toks: seq<Tok.Token>, j: nat, kind: Tok.Kind, closed: bool) {
    j < |toks| && closed == (toks[j].kind == kind)
  }

  predicate Solid(toks: seq<Tok.Token>, i: nat) {
    && i + 1 < |toks|
    && !toks[i].kind.OPren? && !UnaryOp(toks[i].kind)
    && !(toks[i].kind.Identifier? && toks[i + 1].kind.OPren?)
  }

  /** `t` stands at position i: its tokens are there in order, every operand is as long as its
      threshold allows, and every operator of the left spine has at least level q. */
  predicate Reads(g: Grammar, toks: seq<Tok.Token>, i: nat, t: Tree, q: int)
    decreases t
  {
    match t
    case Leaf(tok) => Solid(toks, i) && toks[i] == tok && !toks[i + 1].kind.OBracket?
    case Index(tok, e, closed) =>
      && Solid(toks, i) && toks[i] == tok && toks[i + 1].kind.OBracket?
      && Reads(g, toks, i + 2, e, 0) && Stops(g, toks, i + 2 + Size(e), 0)
      && Closes(toks, i + 2 + Size(e), Tok.CBracket, closed)
    case Paren(e, closed) =>
      && i < |toks| && toks[i].kind.OPren?
      && Reads(g, toks, i + 1, e, 0) && Stops(g, toks, i + 1 + Size(e), 0)
      && Closes(toks, i + 1 + Size(e), Tok.CPren, closed)
    case Call(tok, args) =>
      && i + 1 < |toks| && toks[i] == tok && tok.kind.Identifier? && toks[i + 1].kind.OPren?
      && ReadsAll(g, toks, i + 2, args)
    case Prefix(tok, x) =>
      && i < |toks| && toks[i] == tok && UnaryOp(tok.kind)
      && !x.Infix? && Reads(g, toks, i + 1, x, 0)
    case Infix(l, tok, r) =>
      var j := i + Size(l);
      && j < |toks| && toks[j] == tok
      && var k := g.prec(tok.kind);
      && 0 < k && q <= k
      && Reads(g, toks, i, l, q)
      && Reads(g, toks, j + 1, r, Right(g, k)) && Stops(g, toks, j + 1 + Size(r), Right(g, k))
  }

  /** Arguments up to a closing parenthesis. */
  predicate ReadsAll(g: Grammar, toks: seq<Tok.Token>, i: nat, ts: Trees)
    decreases ts
  {
    match ts
    case NoTrees => i < |toks| && toks[i].kind.CPren?
    case MoreTrees(e, comma, next) =>
      && i < |toks| && !toks[i].kind.CPren?
      && Reads(g, toks, i, e, 0) && Stops(g, toks, i + Size(e), 0)
      && i + Size(e) <= |toks|
      && comma == (i + Size(e) < |toks| && toks[i + Size(e)].kind.Comma?)
      && ReadsAll(g, toks, i + Size(e) + One(comma), next)
  }

  // ----- the parser -----

  /** `Lost` is the end of the process: an unknown operator, or reading past the last token. */
  datatype Parsed = Lost | Parsed(tree: Tree, at: nat)

  datatype ParsedAll = LostAll | ParsedAll(trees: Trees, at: nat)

  function ParseLeft(g: Grammar, toks: seq<Tok.Token>, i: nat): (r: Parsed)
    ensures r.Parsed? ==> i < r.at <= |toks| && !r.tree.Infix?
    decreases |toks| - i, 0
  {
    if i >= |toks| then Lost
    else if toks[i].kind.OPren? then
      match ParseExpr(g, toks, i + 1, 0)
      case Lost => Lost
      case Parsed(e, j) =>
        if j >= |toks| then Lost
        else var closed := toks[j].kind.CPren?; Parsed(Paren(e, closed), j + One(closed))
    else if toks[i].kind.Identifier? && i + 1 < |toks| && toks[i + 1].kind.OPren? then
      match ParseArgs(g, toks, i + 2)
      case LostAll => Lost
      case ParsedAll(args, j) => Parsed(Call(toks[i], args), j + 1)
    else if UnaryOp(toks[i].kind) then
      match ParseLeft(g, toks, i + 1)
      case Lost => Lost
      case Parsed(x, j) => Parsed(Prefix(toks[i], x), j)
    else if i + 1 >= |toks| then Lost
    else if toks[i + 1].kind.OBracket? then
      match ParseExpr(g, toks, i + 2, 0)
      case Lost => Lost
      case Parsed(e, j) =>
        if j >= |toks| then Lost
        else var closed := toks[j].kind.CBracket?; Parsed(Index(toks[i], e, closed), j + One(closed))
    else Parsed(Leaf(toks[i]), i + 1)
  }

  function ParseArgs(g: Grammar, toks: seq<Tok.Token>, i: nat): (r: ParsedAll)
    ensures r.ParsedAll? ==> i <= r.at < |toks| && toks[r.at].kind.CPren?
    decreases |toks| - i, 2
  {
    if i >= |toks| then LostAll
    else if toks[i].kind.CPren? then ParsedAll(NoTrees, i)
    else match ParseExpr(g, toks, i, 0)
      case Lost => LostAll
      case Parsed(e, j) =>
        var comma := j < |toks| && toks[j].kind.Comma?;
        match ParseArgs(g, toks, j + One(comma))
        case LostAll => LostAll
        case ParsedAll(next, j1) => ParsedAll(MoreTrees(e, comma, next), j1)
  }

  function ParseExpr(g: Grammar, toks: seq<Tok.Token>, i: nat, q: int): (r: Parsed)
    ensures r.Parsed? ==> i < r.at <= |toks|
    decreases |toks| - i, 1
  {
    match ParseLeft(g, toks, i)
    case Lost => Lost
    case Parsed(l, j) => ParseRest(g, toks, l, j, q)
  }

  /** The loop: operators of level q and up are taken one after another. */
  function ParseRest(g: Grammar, toks: seq<Tok.Token>, l: Tree, j: nat, q: int): (r: Parsed)
    requires j <= |toks|
    ensures r.Parsed? ==> j <= r.at <= |toks|
    decreases |toks| - j, 3
  {
    if j == |toks| then Parsed(l, j)
    else
      var k := g.prec(toks[j].kind);
      if k < 0 then Lost
      else if k == 0 || k < q then Parsed(l, j)
      else match ParseExpr(g, toks, j + 1, Right(g, k))
        case Lost => Lost
        case Parsed(r, j1) => ParseRest(g, toks, Infix(l, toks[j], r), j1, q)
  }

  // ----- exactness -----

  /** Soundness of the parser: the tree it returns stands where it began, it has consumed exactly
      the tokens of that tree, and the expression cannot go on. */
  lemma {:induction false} ExprSound(g: Grammar, toks: seq<Tok.Token>, i: nat, q: int)
    ensures
      var r := ParseExpr(g, toks, i, q);
      r.Parsed? ==> Reads(g, toks, i, r.tree, q) && r.at == i + Size(r.tree) && Stops(g, toks, r.at, q)
    decreases |toks| - i, 1
  {
    hide Reads, Stops, ParseRest, ParseLeft;
    LeftSound(g, toks, i, q);
    var r := ParseLeft(g, toks, i);
    if r.Parsed? {
      RestSound(g, toks, i, r.tree, r.at, q);
    }
  }

  lemma {:induction false} LeftSound(g: Grammar, toks: seq<Tok.Token>, i: nat, q: int)
    ensures
      var r := ParseLeft(g, toks, i);
      r.Parsed? ==> Reads(g, toks, i, r.tree, q) && r.at == i + Size(r.tree)
    decreases |toks| - i, 0
  {
    hide ParseExpr, ParseArgs, Stops;
    if i < |toks| {
      if toks[i].kind.OPren? {
        ExprSound(g, toks, i + 1, 0);
      } else if toks[i].kind.Identifier? && i + 1 < |toks| && toks[i + 1].kind.OPren? {
        ArgsSound(g, toks, i + 2);
      } else if UnaryOp(toks[i].kind) {
        LeftSound(g, toks, i + 1, 0);
      } else if i + 1 < |toks| && toks[i + 1].kind.OBracket? {
        ExprSound(g, toks, i + 2, 0);
      }
    }
  }

  lemma {:induction false} ArgsSound(g: Grammar, toks: seq<Tok.Token>, i: nat)
    ensures
      var r := ParseArgs(g, toks, i);
      r.ParsedAll? ==> ReadsAll(g, toks, i, r.trees) && r.at == i + SizeAll(r.trees)
    decreases |toks| - i, 2
  {
    hide ParseExpr, ParseArgs, ReadsAll, SizeAll, Stops, Reads, Size;
    ArgsDef(g, toks, i);
    if i < |toks| && !toks[i].kind.CPren? {
      ExprSound(g, toks, i, 0);
      var r := ParseExpr(g, toks, i, 0);
      if r.Parsed? {
        var j := r.at + One(r.at < |toks| && toks[r.at].kind.Comma?);
        ArgsSound(g, toks, j);
        if ParseArgs(g, toks, j).ParsedAll? {
          ArgsStand(g, toks, i, r.tree, r.at < |toks| && toks[r.at].kind.Comma?, ParseArgs(g, toks, j).trees);
        }
      }
    } else if i < |toks| {
      NoArgsStand(g, toks, i);
    }
  }

  lemma ArgsDef(g: Grammar, toks: seq<Tok.Token>, i: nat)
    ensures
      var all := ParseArgs(g, toks, i);
      if i >= |toks| then all.LostAll?
      else if toks[i].kind.CPren? then all == ParsedAll(NoTrees, i)
      else
        var r := ParseExpr(g, toks, i, 0);
        if r.Lost? then all.LostAll?
        else
          var comma := r.at < |toks| && toks[r.at].kind.Comma?;
          var rest := ParseArgs(g, toks, r.at + One(comma));
          if rest.LostAll? then all.LostAll? else all == ParsedAll(MoreTrees(r.tree, comma, rest.trees), rest.at)
  {
    hide ParseExpr;
  }

  lemma NoArgsStand(g: Grammar, toks: seq<Tok.Token>, i: nat)
    requires i < |toks| && toks[i].kind.CPren?
    ensures ReadsAll(g, toks, i, NoTrees) && SizeAll(NoTrees) == 0
  {
  }

  /** One more argument in front. */
  lemma ArgsStand(g: Grammar, toks: seq<Tok.Token>, i: nat, e: Tree, comma: bool, next: Trees)
    requires i < |toks| && !toks[i].kind.CPren? && i + Size(e) <= |toks|
    requires Reads(g, toks, i, e, 0) && Stops(g, toks, i + Size(e), 0)
    requires comma == (i + Size(e) < |toks| && toks[i + Size(e)].kind.Comma?)
    requires ReadsAll(g, toks, i + Size(e) + One(comma), next)
    ensures ReadsAll(g, toks, i, MoreTrees(e, comma, next))
    ensures SizeAll(MoreTrees(e, comma, next)) == Size(e) + One(comma) + SizeAll(next)
  {
    hide Reads, Stops, Size;
  }

  lemma {:induction false} RestSound(g: Grammar, toks: seq<Tok.Token>, i: nat, l: Tree, j: nat, q: int)
    requires i < j <= |toks| && Reads(g, toks, i, l, q) && j == i + Size(l)
    ensures
      var r := ParseRest(g, toks, l, j, q);
      r.Parsed? ==> Reads(g, toks, i, r.tree, q) && r.at == i + Size(r.tree) && Stops(g, toks, r.at, q)
    decreases |toks| - j, 3
  {
    hide ParseExpr, Reads;
    if j < |toks| {
      var k := g.prec(toks[j].kind);
      if k > 0 && k >= q {
        ExprSound(g, toks, j + 1, Right(g, k));
        var r := ParseExpr(g, toks, j + 1, Right(g, k));
        if r.Parsed? {
          InfixReads(g, toks, i, l, r.tree, q);
          RestSound(g, toks, i, Infix(l, toks[j], r.tree), r.at, q);
        }
      }
    }
  }

  lemma InfixReads(g: Grammar, toks: seq<Tok.Token>, i: nat, l: Tree, r: Tree, q: int)
    requires Reads(g, toks, i, l, q) && i + Size(l) < |toks|
    requires
      var k := g.prec(toks[i + Size(l)].kind);
      && 0 < k && q <= k
      && Reads(g, toks, i + Size(l) + 1, r, Right(g, k)) && Stops(g, toks, i + Size(l) + 1 + Size(r), Right(g, k))
    ensures Reads(g, toks, i, Infix(l, toks[i + Size(l)], r), q)
  {
    hide Stops, Closes, Solid, Size;
  }

  /** Completeness: any tree that stands at i and cannot go on is what the parser returns. */
  lemma {:induction false} ExprComplete(g: Grammar, toks: seq<Tok.Token>, i: nat, t: Tree, q: int)
    requires Reads(g, toks, i, t, q) && Stops(g, toks, i + Size(t), q)
    ensures i + Size(t) <= |toks| && ParseExpr(g, toks, i, q) == Parsed(t, i + Size(t))
    decreases t, 2
  {
    hide ParseExpr, Reads;
    SpineComplete(g, toks, i, t, q);
  }

  lemma InfixParts(g: Grammar, toks: seq<Tok.Token>, i: nat, t: Tree, q: int)
    requires t.Infix? && Reads(g, toks, i, t, q)
    ensures
      var j, k := i + Size(t.l), g.prec(t.tok.kind);
      && j < |toks| && toks[j] == t.tok && 0 < k && q <= k && i + Size(t) == j + 1 + Size(t.r)
      && Reads(g, toks, i, t.l, q)
      && Reads(g, toks, j + 1, t.r, Right(g, k)) && Stops(g, toks, j + 1 + Size(t.r), Right(g, k))
  {
    hide Stops;
  }

  /** One round of the loop. */
  lemma RestStep(g: Grammar, toks: seq<Tok.Token>, l: Tree, j: nat, q: int, r: Tree, j1: nat)
    requires j < |toks| && j1 <= |toks|
    requires var k := g.prec(toks[j].kind); 0 < k && q <= k && ParseExpr(g, toks, j + 1, Right(g, k)) == Parsed(r, j1)
    ensures ParseRest(g, toks, l, j, q) == ParseRest(g, toks, Infix(l, toks[j], r), j1, q)
  {
    hide ParseExpr;
  }

  lemma ExprStart(g: Grammar, toks: seq<Tok.Token>, i: nat, l: Tree, j: nat, q: int)
    requires j <= |toks| && ParseLeft(g, toks, i) == Parsed(l, j)
    ensures ParseExpr(g, toks, i, q) == ParseRest(g, toks, l, j, q)
  {
    hide ParseLeft, ParseRest;
  }

  /** The loop gets to every left part of the tree. */
  lemma {:induction false} SpineComplete(g: Grammar, toks: seq<Tok.Token>, i: nat, t: Tree, q: int)
    requires Reads(g, toks, i, t, q)
    ensures i + Size(t) <= |toks|
    ensures ParseExpr(g, toks, i, q) == ParseRest(g, toks, t, i + Size(t), q)
    decreases t, 1
  {
    hide ParseLeft, ParseExpr, ParseRest, Reads, Size, Stops;
    match t
    case Infix(l, tok, r) =>
      InfixParts(g, toks, i, t, q);
      SpineComplete(g, toks, i, l, q);
      var j := i + Size(l);
      var k := g.prec(tok.kind);
      ExprComplete(g, toks, j + 1, r, Right(g, k));
      RestStep(g, toks, l, j, q, r, j + 1 + Size(r));
    case _ =>
      LeftComplete(g, toks, i, t, q);
      ExprStart(g, toks, i, t, i + Size(t), q);
  }

  lemma ParenLeft(g: Grammar, toks: seq<Tok.Token>, i: nat, e: Tree, j: nat, closed: bool)
    requires i < |toks| && toks[i].kind.OPren? && ParseExpr(g, toks, i + 1, 0) == Parsed(e, j)
    requires Closes(toks, j, Tok.CPren, closed)
    ensures ParseLeft(g, toks, i) == Parsed(Paren(e, closed), j + One(closed))
  {
    hide ParseExpr;
  }

  lemma IndexLeft(g: Grammar, toks: seq<Tok.Token>, i: nat, e: Tree, j: nat, closed: bool)
    requires Solid(toks, i) && toks[i + 1].kind.OBracket? && ParseExpr(g, toks, i + 2, 0) == Parsed(e, j)
    requires Closes(toks, j, Tok.CBracket, closed)
    ensures ParseLeft(g, toks, i) == Parsed(Index(toks[i], e, closed), j + One(closed))
  {
    hide ParseExpr;
  }

  lemma LeafLeft(g: Grammar, toks: seq<Tok.Token>, i: nat, t: Tree, q: int)
    requires t.Leaf? && Reads(g, toks, i, t, q)
    ensures i + 1 <= |toks| && ParseLeft(g, toks, i) == Parsed(t, i + 1)
  {
    hide ParseExpr, ParseArgs;
  }

  lemma CallLeft(g: Grammar, toks: seq<Tok.Token>, i: nat, args: Trees, j: nat)
    requires i + 1 < |toks| && toks[i].kind.Identifier? && toks[i + 1].kind.OPren?
    requires ParseArgs(g, toks, i + 2) == ParsedAll(args, j)
    ensures ParseLeft(g, toks, i) == Parsed(Call(toks[i], args), j + 1)
  {
    hide ParseExpr, ParseArgs;
  }

  lemma PrefixLeft(g: Grammar, toks: seq<Tok.Token>, i: nat, x: Tree, j: nat)
    requires i < |toks| && UnaryOp(toks[i].kind) && ParseLeft(g, toks, i + 1) == Parsed(x, j)
    ensures ParseLeft(g, toks, i) == Parsed(Prefix(toks[i], x), j)
  {
    hide ParseExpr, ParseArgs;
  }

  /** The parts of a tree that is not an operation of two operands. */
  lemma LeftParts(g: Grammar, toks: seq<Tok.Token>, i: nat, t: Tree, q: int)
    requires Reads(g, toks, i, t, q)
    ensures t.Index? ==>
              && Solid(toks, i) && toks[i] == t.tok && toks[i + 1].kind.OBracket? && Reads(g, toks, i + 2, t.inner, 0)
              && Stops(g, toks, i + 2 + Size(t.inner), 0) && Closes(toks, i + 2 + Size(t.inner), Tok.CBracket, t.closed)
    ensures t.Paren? ==>
              && i < |toks| && toks[i].kind.OPren? && Reads(g, toks, i + 1, t.inner, 0)
              && Stops(g, toks, i + 1 + Size(t.inner), 0) && Closes(toks, i + 1 + Size(t.inner), Tok.CPren, t.closed)
    ensures t.Call? ==>
              && i + 1 < |toks| && toks[i] == t.tok && t.tok.kind.Identifier? && toks[i + 1].kind.OPren?
              && ReadsAll(g, toks, i + 2, t.args)
    ensures t.Prefix? ==>
              && i < |toks| && toks[i] == t.tok && UnaryOp(toks[i].kind)
              && !t.operand.Infix? && Reads(g, toks, i + 1, t.operand, 0)
  {
    hide Stops, Closes, Solid, Size;
  }

  lemma {:induction false} LeftComplete(g: Grammar, toks: seq<Tok.Token>, i: nat, t: Tree, q: int)
    requires Reads(g, toks, i, t, q) && !t.Infix?
    ensures i + Size(t) <= |toks| && ParseLeft(g, toks, i) == Parsed(t, i + Size(t))
    decreases t, 0
  {
    hide ParseExpr, ParseArgs, ParseRest, ParseLeft, Stops, Reads, ReadsAll, Solid;
    LeftParts(g, toks, i, t, q);
    match t
    case Leaf(_) => LeafLeft(g, toks, i, t, q);
    case Index(_, e, closed) =>
      ExprComplete(g, toks, i + 2, e, 0);
      IndexLeft(g, toks, i, e, i + 2 + Size(e), closed);
    case Paren(e, closed) =>
      ExprComplete(g, toks, i + 1, e, 0);
      ParenLeft(g, toks, i, e, i + 1 + Size(e), closed);
    case Call(_, args) =>
      ArgsComplete(g, toks, i + 2, args);
      CallLeft(g, toks, i, args, i + 2 + SizeAll(args));
    case Prefix(_, x) =>
      LeftComplete(g, toks, i + 1, x, 0);
      PrefixLeft(g, toks, i, x, i + 1 + Size(x));
  }

  lemma ArgsCons(g: Grammar, toks: seq<Tok.Token>, i: nat, e: Tree, j: nat, comma: bool, next: Trees, j1: nat)
    requires i < |toks| && !toks[i].kind.CPren? && i < j <= |toks|
    requires ParseExpr(g, toks, i, 0) == Parsed(e, j)
    requires comma == (j < |toks| && toks[j].kind.Comma?)
    requires ParseArgs(g, toks, j + One(comma)) == ParsedAll(next, j1)
    ensures ParseArgs(g, toks, i) == ParsedAll(MoreTrees(e, comma, next), j1)
  {
    hide ParseExpr;
  }

  lemma {:induction false} ArgsComplete(g: Grammar, toks: seq<Tok.Token>, i: nat, ts: Trees)
    requires ReadsAll(g, toks, i, ts)
    ensures i + SizeAll(ts) < |toks| && ParseArgs(g, toks, i) == ParsedAll(ts, i + SizeAll(ts))
    decreases ts
  {
    hide ParseExpr, Reads, Size, Stops;
    match ts
    case NoTrees =>
    case MoreTrees(e, comma, next) =>
      ExprComplete(g, toks, i, e, 0);
      var j := i + Size(e);
      ArgsComplete(g, toks, j + One(comma), next);
      ArgsCons(g, toks, i, e, j, comma, next, i + SizeAll(ts));
  }

  /** Expression parsing is exact: the parser returns `t` if and only if `t` stands at i and
      cannot go on; so there is one such tree or none. */
  lemma ParserIsExact(g: Grammar, toks: seq<Tok.Token>, i: nat, q: int, t: Tree)
    ensures ParseExpr(g, toks, i, q) == Parsed(t, i + Size(t))
            <==> Reads(g, toks, i, t, q) && Stops(g, toks, i + Size(t), q)
  {
    hide ParseExpr, Reads, Stops;
    ExprSound(g, toks, i, q);
    if Reads(g, toks, i, t, q) && Stops(g, toks, i + Size(t), q) {
      ExprComplete(g, toks, i, t, q);
    }
  }

  lemma OneReading(g: Grammar, toks: seq<Tok.Token>, i: nat, q: int, t: Tree, u: Tree)
    requires Reads(g, toks, i, t, q) && Stops(g, toks, i + Size(t), q)
    requires Reads(g, toks, i, u, q) && Stops(g, toks, i + Size(u), q)
    ensures t == u
  {
    hide ParseExpr, Reads, Stops;
    ExprComplete(g, toks, i, t, q);
    ExprComplete(g, toks, i, u, q);
  }
}
