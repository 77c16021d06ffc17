/** The forms of statements and definitions, token by token, and what each is read as. */
module Forms {
  import opened Ast
  import opened Expressions
  import opened Printing
  import opened Statements
  import opened RoundTrip
  import Grouping
  import Tok = Tokens

  /** Where these tokens stand, with no `else` behind them, the statement s is read, and nothing more. */
  predicate ReadAs(toks: seq<Tok.Token>, i: nat, part: seq<Tok.Token>, s: Stmt) {
    TokensAt(toks, i, part) && Next(toks, i + |part|) ==> ReadStmt(toks, i) == Reading(Single(s), i + |part|, 0)
  }

  function Braced(body: Stmts): seq<Tok.Token> {
    [Tok.Token(Tok.OBrace, "", 0)] + PrintBody(body) + [Tok.Token(Tok.CBrace, "", 0)]
  }

  function Headed(kind: Tok.Kind, word: string, cond: Expr): seq<Tok.Token> {
    [Tok.Token(kind, word, 0), Tok.Token(Tok.OPren, "", 0)] + Print(cond) + [Tok.Token(Tok.CPren, "", 0)]
  }

  const SEMICOLON := [Tok.Token(Tok.Semicolon, "", 0)]

  lemma PrintedIsRead(toks: seq<Tok.Token>, i: nat, s: Stmt)
    requires Written(s)
    ensures ReadAs(toks, i, PrintStmt(s), s)
  {
    hide PrintStmt, ReadStmt, Written, TokensAt, Next;
    if TokensAt(toks, i, PrintStmt(s)) && Next(toks, i + |PrintStmt(s)|) {
      StmtBack(toks, i, s);
    }
  }

  lemma ScopeIsBraced(body: Stmts)
    ensures PrintScope(body) == Braced(body)
  {
    hide PrintBody;
  }

  lemma HeadIs(cond: Expr)
    ensures PrintHead(Tok.While, cond) == Headed(Tok.While, "while", cond)
    ensures PrintHead(Tok.If, cond) == Headed(Tok.If, "if", cond)
  {
    hide Print;
  }

  /** `return e;` and `e;`. */
  lemma ExpressionForms(toks: seq<Tok.Token>, i: nat, e: Expr)
    requires Printable(Trident(), e)
    ensures ReadAs(toks, i, [Tok.Token(Tok.Return, "return", 0)] + Print(e) + SEMICOLON, Stmt.Return(e))
    ensures ReadAs(toks, i, Print(e) + SEMICOLON, Simple(e))
  {
    hide ReadAs, Printable, Print;
    PrintedIsRead(toks, i, Stmt.Return(e));
    PrintedIsRead(toks, i, Simple(e));
  }

  /** Labels and jumps. */
  lemma JumpForms(toks: seq<Tok.Token>, i: nat, x: string)
    ensures ReadAs(toks, i, [Name(x), Tok.Token(Tok.Colon, "", 0)], Lable(x))
    ensures ReadAs(toks, i, [Tok.Token(Tok.Goto, "goto", 0), Name(x), Tok.Token(Tok.Semicolon, "", 0)], Goto(x))
  {
    hide ReadAs;
    PrintedIsRead(toks, i, Lable(x));
    PrintedIsRead(toks, i, Goto(x));
  }

  /** Declarations. */
  lemma DeclarationForms(toks: seq<Tok.Token>, i: nat, x: string, n: nat)
    requires n != 1
    ensures ReadAs(toks, i, [Tok.Token(Tok.Extrn, "extrn", 0), Name(x), Tok.Token(Tok.Semicolon, "", 0)], Stmt.Extrn(x))
    ensures ReadAs(toks, i, [Tok.Token(Tok.Auto, "auto", 0), Name(x)] + [] + SEMICOLON, Stmt.Auto(x, 1))
    ensures ReadAs(toks, i, [Tok.Token(Tok.Auto, "auto", 0), Name(x)]
                            + [Tok.Token(Tok.OBracket, "", 0), Number(n), Tok.Token(Tok.CBracket, "", 0)] + SEMICOLON,
                   Stmt.Auto(x, n))
  {
    hide ReadAs;
    PrintedIsRead(toks, i, Stmt.Extrn(x));
    PrintedIsRead(toks, i, Stmt.Auto(x, 1));
    PrintedIsRead(toks, i, Stmt.Auto(x, n));
  }

  /** Blocks, loops and choices, an `else if` standing for an `if` behind `else`. */
  lemma NestedForms(toks: seq<Tok.Token>, i: nat, cond: Expr, body: Stmts, other: Stmts, chain: Chain)
    requires Printable(Trident(), cond) && WrittenIn(body) && WrittenIn(other) && chain.Link? && WrittenOf(chain)
    ensures ReadAs(toks, i, Braced(body), Block(body))
    ensures ReadAs(toks, i, Headed(Tok.While, "while", cond) + Braced(body), Stmt.While(cond, body))
    ensures ReadAs(toks, i, Headed(Tok.If, "if", cond) + Braced(body), Stmt.If(Link(cond, body, NoChain)))
    ensures ReadAs(toks, i, Headed(Tok.If, "if", cond) + Braced(body) + [Tok.Token(Tok.Else, "else", 0)]
                            + Braced(other),
                   Stmt.If(Link(cond, body, Else(other))))
    ensures ReadAs(toks, i, Headed(Tok.If, "if", cond) + Braced(body) + [Tok.Token(Tok.Else, "else", 0)]
                            + PrintStmt(Stmt.If(chain)), Stmt.If(Link(cond, body, chain)))
  {
    hide ReadAs, Printable, PrintScope, Braced, PrintHead, Headed, PrintBody;
    ScopeIsBraced(body);
    ScopeIsBraced(other);
    HeadIs(cond);
    assert WrittenOf(NoChain) && WrittenOf(Else(other));
    PrintedIsRead(toks, i, Block(body));
    PrintedIsRead(toks, i, Stmt.While(cond, body));
    PrintedIsRead(toks, i, Stmt.If(Link(cond, body, NoChain)));
    PrintedIsRead(toks, i, Stmt.If(Link(cond, body, Else(other))));
    PrintedIsRead(toks, i, Stmt.If(Link(cond, body, chain)));
    ChainForms(cond, body, other, chain);
  }

  lemma ChainForms(cond: Expr, body: Stmts, other: Stmts, chain: Chain)
    requires chain.Link?
    ensures PrintChain(Link(cond, body, NoChain)) == PrintHead(Tok.If, cond) + PrintScope(body)
    ensures PrintChain(Link(cond, body, Else(other)))
            == PrintHead(Tok.If, cond) + PrintScope(body) + [Mark(Tok.Else)] + PrintScope(other)
    ensures PrintChain(Link(cond, body, chain))
            == PrintHead(Tok.If, cond) + PrintScope(body) + [Mark(Tok.Else)] + PrintChain(chain)
  {
    hide PrintHead, PrintScope;
    assert PrintChain(Else(other)) == PrintScope(other);
  }

  /** The three kinds of definitions: where these tokens stand, this definition is read. */
  predicate DefinedAs(toks: seq<Tok.Token>, i: nat, part: seq<Tok.Token>, x: Item) {
    TokensAt(toks, i, part) && i < |toks| ==> ReadItem(toks, i) == ReadingItems([x], i + |part|, 0)
  }

  lemma DefinitionForms(toks: seq<Tok.Token>, i: nat, x: string, y: string, z: string, n: nat, body: Stmts)
    requires WrittenIn(body) && n != 1
    ensures DefinedAs(toks, i, [Name(x), Tok.Token(Tok.Semicolon, "", 0)], GlobalItem(x, 1))
    ensures DefinedAs(toks, i, [Name(x), Tok.Token(Tok.OBracket, "", 0), Number(n), Tok.Token(Tok.CBracket, "", 0),
                                Tok.Token(Tok.Semicolon, "", 0)], GlobalItem(x, n))
    ensures DefinedAs(toks, i, [Tok.Token(Tok.Extrn, "extrn", 0), Name(x), Tok.Token(Tok.Semicolon, "", 0)],
                      ExtrnItem(x))
    ensures DefinedAs(toks, i, [Name(x), Tok.Token(Tok.OPren, "", 0), Tok.Token(Tok.CPren, "", 0)] + Braced(body),
                      FunctionItem(x, [], Block(body)))
    ensures DefinedAs(toks, i, [Name(x), Tok.Token(Tok.OPren, "", 0), Name(y), Tok.Token(Tok.Comma, "", 0), Name(z),
                                Tok.Token(Tok.CPren, "", 0)] + Braced(body), FunctionItem(x, [y, z], Block(body)))
  {
    hide DefinedAs, PrintBody, Braced, PrintScope;
    ScopeIsBraced(body);
    PrintedIsDefined(toks, i, GlobalItem(x, 1));
    PrintedIsDefined(toks, i, GlobalItem(x, n));
    PrintedIsDefined(toks, i, ExtrnItem(x));
    PrintedIsDefined(toks, i, FunctionItem(x, [], Block(body)));
    PrintedIsDefined(toks, i, FunctionItem(x, [y, z], Block(body)));
    GlobalForms(x, n);
    FunctionForms(x, y, z, body);
  }

  lemma GlobalForms(x: string, n: nat)
    requires n != 1
    ensures PrintItem(GlobalItem(x, 1)) == [Name(x), Tok.Token(Tok.Semicolon, "", 0)]
    ensures PrintItem(GlobalItem(x, n))
            == [Name(x), Tok.Token(Tok.OBracket, "", 0), Number(n), Tok.Token(Tok.CBracket, "", 0),
                Tok.Token(Tok.Semicolon, "", 0)]
  {
  }

  lemma FunctionForms(x: string, y: string, z: string, body: Stmts)
    ensures PrintItem(FunctionItem(x, [], Block(body)))
            == [Name(x), Tok.Token(Tok.OPren, "", 0), Tok.Token(Tok.CPren, "", 0)] + PrintScope(body)
    ensures PrintItem(FunctionItem(x, [y, z], Block(body)))
            == [Name(x), Tok.Token(Tok.OPren, "", 0), Name(y), Tok.Token(Tok.Comma, "", 0), Name(z),
                Tok.Token(Tok.CPren, "", 0)] + PrintScope(body)
  {
    hide PrintScope, PrintParams;
    ParamForms(y, z);
    FunctionPrint(FunctionItem(x, [], Block(body)));
    FunctionPrint(FunctionItem(x, [y, z], Block(body)));
  }

  lemma ParamForms(y: string, z: string)
    ensures PrintParams([]) == [] && PrintParams([y, z]) == [Name(y), Tok.Token(Tok.Comma, "", 0), Name(z)]
  {
    assert PrintParams([z]) == [Name(z)] + PrintParams([]);
    assert [y, z][1..] == [z];
    assert PrintParams([y, z]) == [Name(y)] + [Mark(Tok.Comma)] + [Name(z)];
  }

  lemma PrintedIsDefined(toks: seq<Tok.Token>, i: nat, x: Item)
    requires WrittenItem(x)
    ensures DefinedAs(toks, i, PrintItem(x), x)
  {
    hide PrintItem, ReadItem, WrittenItem, TokensAt;
    if TokensAt(toks, i, PrintItem(x)) {
      ItemBack(toks, i, x);
    }
  }

  // ----- expressions -----

  function Var(x: string): Expr {
    Atom(Tok.Identifier, x, 0)
  }

  /** Where these tokens and a semicolon stand, the expression e is read. */
  predicate ExprReadAs(toks: seq<Tok.Token>, i: nat, part: seq<Tok.Token>, e: Expr) {
    TokensAt(toks, i, part + SEMICOLON) ==> ReadExpr(toks, i) == ReadingExpr(e, i + |part|, 0)
  }

  lemma TreeIsRead(toks: seq<Tok.Token>, i: nat, t: Tree)
    requires Shaped(Trident(), t, 0)
    ensures TokensAt(toks, i, Yield(t) + SEMICOLON) ==>
              ReadExpr(toks, i) == ReadingExpr(Abs(t), i + |Yield(t)|, Missed(t))
  {
    hide ParseExpr, Yield, Shaped, TokensAt, Abs, Missed, Prec;
    if TokensAt(toks, i, Yield(t) + SEMICOLON) {
      assert SEMICOLON == [Mark(Tok.Semicolon)];
      TreeReads(Trident(), toks, i, t) by { Grouping.TridentSane(); }
    }
  }

  /** `x op y`, left before right. */
  lemma InfixForm(toks: seq<Tok.Token>, i: nat, x: string, kind: Tok.Kind, y: string, a: nat)
    requires a < |Grouping.LEVELS| && kind in Grouping.LEVELS[a]
    ensures ExprReadAs(toks, i, [Name(x), Tok.Token(kind, "", 0), Name(y)], Binary(Var(x), kind, Var(y)))
  {
    hide TokensAt, ReadExpr, Prec;
    Grouping.PrecOf(kind, a);
    hide Grouping.LEVELS;
    var op := Tok.Token(kind, "", 0);
    var t := Infix(Leaf(Name(x)), op, Leaf(Name(y)));
    assert Yield(t) == [Name(x), op, Name(y)];
    TreeIsRead(toks, i, t);
  }

  /** `op x`. */
  lemma PrefixForm(toks: seq<Tok.Token>, i: nat, x: string, kind: Tok.Kind)
    requires kind in Grouping.PREFIXES
    ensures ExprReadAs(toks, i, [Tok.Token(kind, "", 0), Name(x)], Unary(kind, Var(x)))
  {
    hide TokensAt, ReadExpr, Prec;
    var t := Prefix(Tok.Token(kind, "", 0), Leaf(Name(x)));
    assert Yield(t) == [Tok.Token(kind, "", 0), Name(x)];
    TreeIsRead(toks, i, t);
  }

  /** Calls, indices and parentheses. */
  lemma BracketForms(toks: seq<Tok.Token>, i: nat, x: string, y: string, z: string)
    ensures ExprReadAs(toks, i, [Name(x), Tok.Token(Tok.OPren, "", 0), Name(y), Tok.Token(Tok.Comma, "", 0), Name(z),
                                 Tok.Token(Tok.CPren, "", 0)],
                       FunctionCall(x, MoreExprs(Var(y), MoreExprs(Var(z), NoExprs))))
    ensures ExprReadAs(toks, i, [Name(x), Tok.Token(Tok.OBracket, "", 0), Name(y), Tok.Token(Tok.CBracket, "", 0)],
                       Unary(Tok.Mul, Binary(Binary(Var(y), Tok.Mul, Atom(Tok.IntLit, "", 8)), Tok.Add,
                                             Unary(Tok.BitAnd, Var(x)))))
    ensures ExprReadAs(toks, i, [Tok.Token(Tok.OPren, "", 0), Name(x), Tok.Token(Tok.CPren, "", 0)], Var(x))
  {
    hide TokensAt, ReadExpr, Prec;
    CallForm(toks, i, x, y, z);
    var t := Index(Name(x), Leaf(Name(y)), true);
    assert Yield(t) == [Name(x), Mark(Tok.OBracket), Name(y), Mark(Tok.CBracket)];
    TreeIsRead(toks, i, t);
    var u := Paren(Leaf(Name(x)), true);
    assert Yield(u) == [Mark(Tok.OPren), Name(x), Mark(Tok.CPren)];
    TreeIsRead(toks, i, u);
  }

  lemma CallForm(toks: seq<Tok.Token>, i: nat, x: string, y: string, z: string)
    ensures ExprReadAs(toks, i, [Name(x), Tok.Token(Tok.OPren, "", 0), Name(y), Tok.Token(Tok.Comma, "", 0), Name(z),
                                 Tok.Token(Tok.CPren, "", 0)],
                       FunctionCall(x, MoreExprs(Var(y), MoreExprs(Var(z), NoExprs))))
  {
    hide TokensAt, ReadExpr, Prec, YieldAll, AbsAll, MissedAll, ShapedAll, Shaped;
    var args := TwoArgs(y, z);
    var t := Call(Name(x), args);
    TwoArgsAre(y, z);
    assert Yield(t) == [Name(x), Mark(Tok.OPren), Name(y), Mark(Tok.Comma), Name(z), Mark(Tok.CPren)];
    assert Shaped(Trident(), t, 0) by { CallShaped(Name(x), args); }
    TreeIsRead(toks, i, t);
  }

  function TwoArgs(y: string, z: string): Trees {
    MoreTrees(Leaf(Name(y)), true, MoreTrees(Leaf(Name(z)), false, NoTrees))
  }

  lemma CallShaped(tok: Tok.Token, args: Trees)
    requires tok.kind.Identifier? && ShapedAll(Trident(), args)
    ensures Shaped(Trident(), Call(tok, args), 0)
  {
    hide ShapedAll;
  }

  lemma TwoArgsAre(y: string, z: string)
    ensures YieldAll(TwoArgs(y, z)) == [Name(y), Tok.Token(Tok.Comma, "", 0), Name(z)]
    ensures AbsAll(TwoArgs(y, z)) == MoreExprs(Var(y), MoreExprs(Var(z), NoExprs))
    ensures MissedAll(TwoArgs(y, z)) == 0 && ShapedAll(Trident(), TwoArgs(y, z))
  {
    hide Prec;
    var last := MoreTrees(Leaf(Name(z)), false, NoTrees);
    LastArg(z);
    assert TwoArgs(y, z) == MoreTrees(Leaf(Name(y)), true, last);
    assert Missed(Leaf(Name(y))) == 0;
  }

  lemma LastArg(z: string)
    ensures
      var last := MoreTrees(Leaf(Name(z)), false, NoTrees);
      && YieldAll(last) == [Name(z)] && AbsAll(last) == MoreExprs(Var(z), NoExprs)
      && MissedAll(last) == 0 && ShapedAll(Trident(), last)
  {
    hide Prec;
    assert Missed(Leaf(Name(z))) == 0;
  }

  // ----- lists of names -----

  function GlobalItems(ds: seq<Decl>): seq<Item> {
    if ds == [] then [] else [GlobalItem(ds[0].name, ds[0].size)] + GlobalItems(ds[1..])
  }

  lemma GlobalSized(toks: seq<Tok.Token>, i: nat, n: nat, rest: seq<Tok.Token>)
    requires TokensAt(toks, i, PrintSize(n) + rest) && rest != [] && !rest[0].kind.OBracket?
    ensures ReadSize(toks, i, false) == Sized(n, i + |PrintSize(n)|, 0)
    ensures TokensAt(toks, i + |PrintSize(n)|, rest) && i + |PrintSize(n)| < |toks|
    ensures toks[i + |PrintSize(n)|] == rest[0]
  {
    hide TokensAt;
    AtSum(toks, i, PrintSize(n), rest);
    AtOne(toks, i + |PrintSize(n)|, rest, 0);
    if n != 1 {
      var p := [Mark(Tok.OBracket), Number(n), Mark(Tok.CBracket)];
      AtOne(toks, i, p, 0);
      AtOne(toks, i, p, 1);
      AtOne(toks, i, p, 2);
    }
  }

  lemma GlobalsLast(toks: seq<Tok.Token>, name: string, i: nat, n: nat, j: nat)
    requires ReadSize(toks, i, false) == Sized(n, j, 0) && Is(toks, j, Tok.Semicolon)
    ensures ReadGlobals(toks, name, i) == ReadingItems([GlobalItem(name, n)], j + 1, 0)
  {
    hide ReadSize;
  }

  lemma GlobalsCons(toks: seq<Tok.Token>, name: string, i: nat, n: nat, j: nat, items: seq<Item>, end: nat)
    requires ReadSize(toks, i, false) == Sized(n, j, 0) && Is(toks, j, Tok.Comma) && j + 1 < |toks| && i <= j
    requires ReadGlobals(toks, toks[j + 1].lexeme, j + 2) == ReadingItems(items, end, 0)
    ensures ReadGlobals(toks, name, i) == ReadingItems([GlobalItem(name, n)] + items, end, 0)
  {
    hide ReadSize;
  }

  /** One definition with a list of names is read as one global for each, with its size. */
  lemma {:induction false} GlobalsBack(toks: seq<Tok.Token>, i: nat, ds: seq<Decl>)
    requires ds != [] && TokensAt(toks, i, PrintDecls(ds))
    ensures i < |toks| && toks[i] == Name(ds[0].name)
    ensures ReadGlobals(toks, ds[0].name, i + 1) == ReadingItems(GlobalItems(ds), i + |PrintDecls(ds)|, 0)
    decreases |ds|
  {
    hide TokensAt, ReadSize, PrintSize, ReadGlobals, PrintDecls, PrintMore, GlobalItems;
    DeclaredCons(ds);
    ItemsCons(ds);
    var x, n, rest := ds[0].name, ds[0].size, PrintMore(ds);
    DeclsPrint(ds);
    AtSum(toks, i, [Name(x)], PrintSize(n) + rest);
    AtOne(toks, i, [Name(x)], 0);
    GlobalSized(toks, i + 1, n, rest);
    var j := i + 1 + |PrintSize(n)|;
    if |ds| == 1 {
      GlobalsLast(toks, x, i + 1, n, j);
    } else {
      AtSum(toks, j, [Mark(Tok.Comma)], PrintDecls(ds[1..]));
      GlobalsBack(toks, j + 1, ds[1..]);
      GlobalsCons(toks, x, i + 1, n, j, GlobalItems(ds[1..]), j + 1 + |PrintDecls(ds[1..])|);
    }
  }

  lemma ItemsCons(ds: seq<Decl>)
    requires ds != []
    ensures GlobalItems(ds) == [GlobalItem(ds[0].name, ds[0].size)] + GlobalItems(ds[1..])
    ensures |ds| == 1 ==> GlobalItems(ds) == [GlobalItem(ds[0].name, ds[0].size)]
  {
    assert GlobalItems([]) == [];
  }

  function PrintNames(names: seq<string>): seq<Tok.Token>
    requires names != []
  {
    [Name(names[0])] + if |names| == 1 then [Tok.Token(Tok.Semicolon, "", 0)]
                       else [Tok.Token(Tok.Comma, "", 0)] + PrintNames(names[1..])
  }

  function ExtrnStmts(names: seq<string>): Stmts {
    if names == [] then NoStmts else MoreStmts(Stmt.Extrn(names[0]), ExtrnStmts(names[1..]))
  }

  /** One `extrn` with a list of names is read as one declaration for each. */
  lemma {:induction false} ExtrnsBack(toks: seq<Tok.Token>, i: nat, names: seq<string>)
    requires names != [] && TokensAt(toks, i, PrintNames(names))
    ensures ReadExtrns(toks, i) == Reading(ExtrnStmts(names), i + |PrintNames(names)|, 0)
    decreases |names|
  {
    hide TokensAt;
    if |names| == 1 {
      AtOne(toks, i, PrintNames(names), 0);
      AtOne(toks, i, PrintNames(names), 1);
      assert ExtrnStmts(names) == MoreStmts(Stmt.Extrn(names[0]), ExtrnStmts([]));
    } else {
      var head, rest := [Name(names[0]), Tok.Token(Tok.Comma, "", 0)], PrintNames(names[1..]);
      assert PrintNames(names) == head + rest;
      AtSum(toks, i, head, rest);
      AtOne(toks, i, head, 0);
      AtOne(toks, i, head, 1);
      AtOne(toks, i + 2, rest, 0);
      ExtrnsBack(toks, i + 2, names[1..]);
    }
  }

  // ----- malformed input -----

  /** A stray comma is passed over. */
  lemma StrayComma(toks: seq<Tok.Token>, i: nat)
    requires i < |toks| && toks[i].kind.Comma?
    ensures ReadStmt(toks, i) == Reading(NoStmts, i + 1, 0)
  {
    hide ReadSemi;
  }

  /** An expression statement whose semicolon is missing is read all the same, with one message, and the
      token in its place is not taken. */
  lemma MissingSemicolon(toks: seq<Tok.Token>, i: nat, x: string, next: Tok.Token)
    requires TokensAt(toks, i, [Name(x), next]) && next.kind in Grouping.ENDERS && !next.kind.Semicolon?
    ensures ReadStmt(toks, i) == Reading(Single(Simple(Var(x))), i + 1, 1)
  {
    hide TokensAt, ParseExpr, Prec;
    AtOne(toks, i, [Name(x), next], 0);
    AtOne(toks, i, [Name(x), next], 1);
    assert Yield(Leaf(Name(x))) + [next] == [Name(x), next];
    Grouping.OperandEnds(toks, i, Leaf(Name(x)), next);
    PlainHere(toks, i);
  }

  /** So is a parenthesis that is never closed. */
  lemma MissingParenthesis(toks: seq<Tok.Token>, i: nat, x: string, next: Tok.Token)
    requires TokensAt(toks, i, [Tok.Token(Tok.OPren, "", 0), Name(x), next])
    requires next.kind in Grouping.ENDERS && !next.kind.CPren?
    ensures ReadExpr(toks, i) == ReadingExpr(Var(x), i + 2, 1)
  {
    hide TokensAt, ParseExpr, Prec, ParseRest;
    var all := [Tok.Token(Tok.OPren, "", 0), Name(x), next];
    AtOne(toks, i, all, 0);
    AtSum(toks, i, [Tok.Token(Tok.OPren, "", 0)], [Name(x), next]) by {
      assert all == [Tok.Token(Tok.OPren, "", 0)] + [Name(x), next];
    }
    AtOne(toks, i, all, 2);
    assert Yield(Leaf(Name(x))) + [next] == [Name(x), next];
    Grouping.OperandEnds(toks, i + 1, Leaf(Name(x)), next);
    ParenLeft(Trident(), toks, i, Leaf(Name(x)), i + 2, false);
    ExprStart(Trident(), toks, i, Paren(Leaf(Name(x)), false), i + 2, 0);
    Grouping.PrecEnds(next.kind);
    RestEnds(toks, Paren(Leaf(Name(x)), false), i + 2);
    assert Abs(Leaf(Name(x))) == Var(x) && Missed(Leaf(Name(x))) == 0;
    assert Abs(Paren(Leaf(Name(x)), false)) == Var(x) && Missed(Paren(Leaf(Name(x)), false)) == 1;
  }

  lemma RestEnds(toks: seq<Tok.Token>, t: Tree, j: nat)
    requires j < |toks| && Prec(toks[j].kind) == 0
    ensures ParseRest(Trident(), toks, t, j, 0) == Parsed(t, j)
  {
    hide ParseExpr, Prec;
  }
}
