/** Printing statements, functions and files, and reading them back. */
module RoundTrip {
  import opened Ast
  import opened Expressions
  import opened Printing
  import opened Statements
  import Tok = Tokens
  import L = Lexing

  function Name(x: string): Tok.Token {
    Tok.Token(Tok.Identifier, x, 0)
  }

  function Number(n: nat): Tok.Token {
    Tok.Token(Tok.IntLit, L.NumeralOf(n, 10), n)
  }

  function PrintSize(n: nat): seq<Tok.Token> {
    if n == 1 then [] else [Mark(Tok.OBracket), Number(n), Mark(Tok.CBracket)]
  }

  function Print(e: Expr): seq<Tok.Token> {
    PrintExpr(Trident(), e)
  }

  function PrintStmt(s: Stmt): seq<Tok.Token>
    decreases s, 0
  {
    match s
    case Return(e) => [Mark(Tok.Return)] + Print(e) + [Mark(Tok.Semicolon)]
    case Block(body) => PrintScope(body)
    case Auto(x, n) => [Mark(Tok.Auto), Name(x)] + PrintSize(n) + [Mark(Tok.Semicolon)]
    case Extrn(x) => [Mark(Tok.Extrn), Name(x), Mark(Tok.Semicolon)]
    case Simple(e) => Print(e) + [Mark(Tok.Semicolon)]
    case If(links) => PrintChain(links)
    case While(cond, body) => PrintHead(Tok.While, cond) + PrintScope(body)
    case Lable(x) => [Name(x), Mark(Tok.Colon)]
    case Goto(x) => [Mark(Tok.Goto), Name(x), Mark(Tok.Semicolon)]
  }

  /** A keyword and a condition. */
  function PrintHead(kind: Tok.Kind, cond: Expr): seq<Tok.Token> {
    [Mark(kind), Mark(Tok.OPren)] + Print(cond) + [Mark(Tok.CPren)]
  }

  function PrintScope(body: Stmts): seq<Tok.Token>
    decreases body, 1
  {
    [Mark(Tok.OBrace)] + PrintBody(body) + [Mark(Tok.CBrace)]
  }

  function PrintBody(body: Stmts): seq<Tok.Token>
    decreases body, 0
  {
    match body
    case NoStmts => []
    case MoreStmts(s, next) => PrintStmt(s) + PrintBody(next)
  }

  function PrintChain(links: Chain): seq<Tok.Token>
    decreases links, 0
  {
    match links
    case NoChain => []
    case Else(body) => PrintScope(body)
    case Link(cond, body, chain) =>
      PrintHead(Tok.If, cond) + PrintScope(body) + (if chain.NoChain? then [] else [Mark(Tok.Else)]) + PrintChain(chain)
  }

  /** Trees that the parser makes: printable expressions, and `if`s that begin with an `if`. */
  predicate Written(s: Stmt) {
    match s
    case Return(e) => Printable(Trident(), e)
    case Block(body) => WrittenIn(body)
    case Simple(e) => Printable(Trident(), e)
    case If(links) => links.Link? && WrittenOf(links)
    case While(cond, body) => Printable(Trident(), cond) && WrittenIn(body)
    case _ => true
  }

  predicate WrittenIn(ss: Stmts) {
    match ss
    case NoStmts => true
    case MoreStmts(s, next) => Written(s) && WrittenIn(next)
  }

  predicate WrittenOf(c: Chain) {
    match c
    case NoChain => true
    case Link(cond, body, chain) => Printable(Trident(), cond) && WrittenIn(body) && WrittenOf(chain)
    case Else(body) => WrittenIn(body)
  }

  // ----- expressions -----

  /** An expression with a token behind it that ends expressions. */
  lemma ExprBack(toks: seq<Tok.Token>, i: nat, e: Expr, kind: Tok.Kind)
    requires Printable(Trident(), e) && TokensAt(toks, i, Print(e) + [Mark(kind)])
    requires kind.CPren? || kind.Semicolon?
    ensures ReadExpr(toks, i) == ReadingExpr(e, i + |Print(e)|, 0)
    ensures i + |Print(e)| < |toks| && toks[i + |Print(e)|] == Mark(kind)
    ensures i < |toks| && Opens(toks[i].kind) && Print(e) != []
    ensures !(toks[i].kind.Identifier? && Is(toks, i + 1, Tok.Colon))
  {
    hide Conc, ParseExpr, Yield, TokensAt, Printable, Shaped, Reads, Size, PrintExpr, Opens, Missed, Abs;
    AtSum(toks, i, Print(e), [Mark(kind)]);
    AtOne(toks, i + |Print(e)|, [Mark(kind)], 0);
    PrintThenParse(Trident(), toks, i, e);
    ExprOpens(toks, i, e);
    ReadNotLabel(toks, i);
  }

  lemma ReadNotLabel(toks: seq<Tok.Token>, i: nat)
    requires
      var r := ParseExpr(Trident(), toks, i, 0);
      r.Parsed? && !Is(toks, r.at, Tok.Colon)
    ensures !(Is(toks, i, Tok.Identifier) && Is(toks, i + 1, Tok.Colon))
  {
    hide ParseExpr, Reads, Stops, Is;
    ExprSound(Trident(), toks, i, 0);
    NotLabel(toks, i, ParseExpr(Trident(), toks, i, 0).tree, 0);
  }

  lemma ExprOpens(toks: seq<Tok.Token>, i: nat, e: Expr)
    requires Printable(Trident(), e) && TokensAt(toks, i, Print(e))
    ensures Print(e) != [] && i < |toks| && Opens(toks[i].kind)
  {
    hide Conc, Yield, TokensAt, Printable, Shaped, First;
    ConcShaped(Trident(), e, 0);
    FirstIs(Conc(Trident(), e, 0));
    AtOne(toks, i, Print(e), 0);
  }

  /** An expression never begins like a label. */
  lemma {:induction false} NotLabel(toks: seq<Tok.Token>, i: nat, t: Tree, q: int)
    requires Reads(Trident(), toks, i, t, q) && !Is(toks, i + Size(t), Tok.Colon)
    ensures !(Is(toks, i, Tok.Identifier) && Is(toks, i + 1, Tok.Colon))
    decreases t
  {
    match t
    case Infix(l, _, _) => NotLabel(toks, i, l, q);
    case _ =>
  }

  lemma SemiBack(toks: seq<Tok.Token>, i: nat, e: Expr)
    requires Printable(Trident(), e) && TokensAt(toks, i, Print(e) + [Mark(Tok.Semicolon)])
    ensures ReadSemi(toks, i) == ReadingExpr(e, i + |Print(e)| + 1, 0)
  {
    hide ReadExpr, Print, TokensAt, Printable;
    ExprBack(toks, i, e, Tok.Semicolon);
  }

  lemma ConditionBack(toks: seq<Tok.Token>, i: nat, kind: Tok.Kind, e: Expr)
    requires Printable(Trident(), e) && TokensAt(toks, i, PrintHead(kind, e))
    ensures ReadCondition(toks, i + 1) == ReadingExpr(e, i + |PrintHead(kind, e)|, 0)
    ensures i < |toks| && toks[i] == Mark(kind)
  {
    hide ReadExpr, Print, TokensAt, Printable;
    var open := [Mark(kind), Mark(Tok.OPren)];
    assert PrintHead(kind, e) == open + (Print(e) + [Mark(Tok.CPren)]);
    AtSum(toks, i, open, Print(e) + [Mark(Tok.CPren)]);
    AtOne(toks, i, open, 0);
    AtOne(toks, i, open, 1);
    ExprBack(toks, i + 2, e, Tok.CPren);
  }

  // ----- statements -----

  /** What does not continue the statement before it. */
  predicate Next(toks: seq<Tok.Token>, j: nat) {
    j < |toks| && !toks[j].kind.Else?
  }

  lemma {:induction false} StmtOpens(toks: seq<Tok.Token>, i: nat, s: Stmt)
    requires Written(s) && TokensAt(toks, i, PrintStmt(s))
    ensures PrintStmt(s) != [] && i < |toks| && !toks[i].kind.Else? && !toks[i].kind.CBrace?
  {
    hide Print, TokensAt, Printable, PrintBody;
    if s.Simple? {
      AtSum(toks, i, Print(s.expr), [Mark(Tok.Semicolon)]);
      ExprOpens(toks, i, s.expr);
    } else {
      AtOne(toks, i, PrintStmt(s), 0);
    }
  }

  lemma {:induction false} StmtBack(toks: seq<Tok.Token>, i: nat, s: Stmt)
    requires Written(s) && TokensAt(toks, i, PrintStmt(s)) && Next(toks, i + |PrintStmt(s)|)
    ensures ReadStmt(toks, i) == Reading(Single(s), i + |PrintStmt(s)|, 0)
    decreases s, 1
  {
    hide Print, TokensAt, Printable, PrintScope, PrintHead, ReadScope, ReadIf, ReadWhile, ReadExpr, ReadAutos,
      ReadExtrns,
      ReadPlain, PrintSize, PrintChain, Jump, ReadSemi, PrintStmt;
    match s
    case Return(e) => ReturnBack(toks, i, e);
    case Block(body) => BlockBack(toks, i, body);
    case Auto(x, n) => AutoBack(toks, i, x, n);
    case Extrn(x) => ExtrnBack(toks, i, x);
    case Simple(e) => SimpleBack(toks, i, e);
    case If(links) => IfBack(toks, i, links);
    case While(cond, body) => WhileBack(toks, i, cond, body);
    case Lable(x) => LableBack(toks, i, x);
    case Goto(x) => GotoBack(toks, i, x);
  }

  lemma ReturnBack(toks: seq<Tok.Token>, i: nat, e: Expr)
    requires Printable(Trident(), e) && TokensAt(toks, i, PrintStmt(Stmt.Return(e)))
    ensures ReadStmt(toks, i) == Reading(Single(Stmt.Return(e)), i + |PrintStmt(Stmt.Return(e))|, 0)
  {
    hide Print, TokensAt, Printable, ReadSemi;
    assert PrintStmt(Stmt.Return(e)) == [Mark(Tok.Return)] + (Print(e) + [Mark(Tok.Semicolon)]);
    AtSum(toks, i, [Mark(Tok.Return)], Print(e) + [Mark(Tok.Semicolon)]);
    AtOne(toks, i, [Mark(Tok.Return)], 0);
    SemiBack(toks, i + 1, e);
  }

  lemma SimpleBack(toks: seq<Tok.Token>, i: nat, e: Expr)
    requires Printable(Trident(), e) && TokensAt(toks, i, PrintStmt(Simple(e)))
    ensures ReadStmt(toks, i) == Reading(Single(Simple(e)), i + |PrintStmt(Simple(e))|, 0)
  {
    hide Print, TokensAt, Printable, ReadSemi;
    SemiBack(toks, i, e);
    ExprBack(toks, i, e, Tok.Semicolon);
    PlainHere(toks, i);
  }

  lemma PlainHere(toks: seq<Tok.Token>, i: nat)
    requires i < |toks| && (Opens(toks[i].kind))
    ensures ReadStmt(toks, i) == ReadPlain(toks, i) && !toks[i].kind.Comma?
  {
    hide ReadPlain, ReadAutos, ReadExtrns, ReadScope, ReadIf, ReadWhile, ReadSemi, Jump;
  }

  lemma SizeBack(toks: seq<Tok.Token>, i: nat, n: nat, strict: bool)
    requires TokensAt(toks, i, PrintSize(n) + [Mark(Tok.Semicolon)])
    ensures ReadSize(toks, i, strict) == Sized(n, i + |PrintSize(n)|, 0)
    ensures Is(toks, i + |PrintSize(n)|, Tok.Semicolon)
  {
    hide TokensAt;
    AtSum(toks, i, PrintSize(n), [Mark(Tok.Semicolon)]);
    AtOne(toks, i + |PrintSize(n)|, [Mark(Tok.Semicolon)], 0);
    if n != 1 {
      var p := [Mark(Tok.OBracket), Number(n), Mark(Tok.CBracket)];
      AtOne(toks, i, p, 0);
      AtOne(toks, i, p, 1);
      AtOne(toks, i, p, 2);
    }
  }

  lemma AutoBack(toks: seq<Tok.Token>, i: nat, x: string, n: nat)
    requires TokensAt(toks, i, PrintStmt(Stmt.Auto(x, n)))
    ensures ReadStmt(toks, i) == Reading(Single(Stmt.Auto(x, n)), i + |PrintStmt(Stmt.Auto(x, n))|, 0)
  {
    hide TokensAt, PrintSize, ReadSize, ReadAutos;
    var head, tail := [Mark(Tok.Auto), Name(x)], PrintSize(n) + [Mark(Tok.Semicolon)];
    assert PrintStmt(Stmt.Auto(x, n)) == head + tail;
    AtSum(toks, i, head, tail);
    AtOne(toks, i, head, 0);
    AtOne(toks, i, head, 1);
    SizeBack(toks, i + 2, n, true);
    AutosLast(toks, i + 1, n, i + 2 + |PrintSize(n)|);
  }

  lemma ExtrnBack(toks: seq<Tok.Token>, i: nat, x: string)
    requires TokensAt(toks, i, PrintStmt(Stmt.Extrn(x)))
    ensures ReadStmt(toks, i) == Reading(Single(Stmt.Extrn(x)), i + |PrintStmt(Stmt.Extrn(x))|, 0)
  {
    hide TokensAt;
    var p := PrintStmt(Stmt.Extrn(x));
    AtOne(toks, i, p, 0);
    AtOne(toks, i, p, 1);
    AtOne(toks, i, p, 2);
  }

  lemma GotoBack(toks: seq<Tok.Token>, i: nat, x: string)
    requires TokensAt(toks, i, PrintStmt(Stmt.Goto(x)))
    ensures ReadStmt(toks, i) == Reading(Single(Stmt.Goto(x)), i + |PrintStmt(Stmt.Goto(x))|, 0)
  {
    hide TokensAt;
    var p := PrintStmt(Stmt.Goto(x));
    AtOne(toks, i, p, 0);
    AtOne(toks, i, p, 1);
    AtOne(toks, i, p, 2);
  }

  lemma LableBack(toks: seq<Tok.Token>, i: nat, x: string)
    requires TokensAt(toks, i, PrintStmt(Stmt.Lable(x)))
    ensures ReadStmt(toks, i) == Reading(Single(Stmt.Lable(x)), i + |PrintStmt(Stmt.Lable(x))|, 0)
  {
    hide TokensAt;
    var p := PrintStmt(Stmt.Lable(x));
    AtOne(toks, i, p, 0);
    AtOne(toks, i, p, 1);
    PlainHere(toks, i);
  }

  lemma {:induction false} BlockBack(toks: seq<Tok.Token>, i: nat, body: Stmts)
    requires WrittenIn(body) && TokensAt(toks, i, PrintStmt(Block(body)))
    ensures ReadStmt(toks, i) == Reading(Single(Block(body)), i + |PrintStmt(Block(body))|, 0)
    decreases body, 3
  {
    hide TokensAt, ReadScope, PrintBody;
    AtOne(toks, i, PrintStmt(Block(body)), 0);
    ScopeBack(toks, i, body);
  }

  lemma {:induction false} WhileBack(toks: seq<Tok.Token>, i: nat, cond: Expr, body: Stmts)
    requires Printable(Trident(), cond) && WrittenIn(body) && TokensAt(toks, i, PrintStmt(Stmt.While(cond, body)))
    ensures ReadStmt(toks, i) == Reading(Single(Stmt.While(cond, body)), i + |PrintStmt(Stmt.While(cond, body))|, 0)
    decreases body, 3
  {
    hide TokensAt, ReadScope, PrintScope, PrintHead, Printable, ReadCondition;
    AtSum(toks, i, PrintHead(Tok.While, cond), PrintScope(body));
    ConditionBack(toks, i, Tok.While, cond);
    ScopeBack(toks, i + |PrintHead(Tok.While, cond)|, body);
  }

  lemma {:induction false} IfBack(toks: seq<Tok.Token>, i: nat, links: Chain)
    requires links.Link? && WrittenOf(links) && TokensAt(toks, i, PrintStmt(Stmt.If(links)))
    requires Next(toks, i + |PrintStmt(Stmt.If(links))|)
    ensures ReadStmt(toks, i) == Reading(Single(Stmt.If(links)), i + |PrintStmt(Stmt.If(links))|, 0)
    decreases links, 3
  {
    hide TokensAt, ReadIf, PrintChain;
    LinkBack(toks, i, links);
  }

  /** The links of an `if`, from the `if` on. */
  lemma {:induction false} LinkBack(toks: seq<Tok.Token>, i: nat, links: Chain)
    requires links.Link? && WrittenOf(links) && TokensAt(toks, i, PrintChain(links))
    requires Next(toks, i + |PrintChain(links)|)
    ensures ReadIf(toks, i) == ReadingChain(links, i + |PrintChain(links)|, 0)
    ensures Is(toks, i, Tok.If)
    decreases links, 2
  {
    hide TokensAt, PrintScope, PrintHead, Printable, ReadCondition, ReadElse, ReadScope;
    var head, scope, chain := PrintHead(Tok.If, links.cond), PrintScope(links.body), links.chain;
    var tail := (if chain.NoChain? then [] else [Mark(Tok.Else)]) + PrintChain(chain);
    LinkPrint(links);
    AtSum(toks, i, head, scope + tail);
    AtSum(toks, i + |head|, scope, tail);
    ConditionBack(toks, i, Tok.If, links.cond);
    ScopeBack(toks, i + |head|, links.body);
    ElseBack(toks, i + |head| + |scope|, chain);
  }

  lemma LinkPrint(links: Chain)
    requires links.Link?
    ensures PrintChain(links)
            == PrintHead(Tok.If, links.cond)
               + (PrintScope(links.body)
                  + ((if links.chain.NoChain? then [] else [Mark(Tok.Else)]) + PrintChain(links.chain)))
  {
    hide PrintHead, PrintScope;
  }

  lemma {:induction false} ElseBack(toks: seq<Tok.Token>, i: nat, chain: Chain)
    requires WrittenOf(chain)
    requires TokensAt(toks, i, (if chain.NoChain? then [] else [Mark(Tok.Else)]) + PrintChain(chain))
    requires Next(toks, i + One(!chain.NoChain?) + |PrintChain(chain)|)
    ensures ReadElse(toks, i) == ReadingChain(chain, i + One(!chain.NoChain?) + |PrintChain(chain)|, 0)
    decreases chain, 4
  {
    hide TokensAt, PrintScope, ReadScope, ReadIf, PrintHead;
    match chain
    case NoChain =>
    case Else(body) =>
      AtSum(toks, i, [Mark(Tok.Else)], PrintScope(body));
      AtOne(toks, i, [Mark(Tok.Else)], 0);
      ScopeBack(toks, i + 1, body);
    case Link(_, _, _) =>
      AtSum(toks, i, [Mark(Tok.Else)], PrintChain(chain));
      AtOne(toks, i, [Mark(Tok.Else)], 0);
      LinkBack(toks, i + 1, chain);
  }

  lemma {:induction false} ScopeBack(toks: seq<Tok.Token>, i: nat, body: Stmts)
    requires WrittenIn(body) && TokensAt(toks, i, PrintScope(body))
    ensures ReadScope(toks, i) == Reading(body, i + |PrintScope(body)|, 0)
    ensures Is(toks, i, Tok.OBrace)
    decreases body, 2
  {
    hide TokensAt, PrintBody, ReadBody;
    AtThree(toks, i, [Mark(Tok.OBrace)], PrintBody(body), [Mark(Tok.CBrace)]);
    AtOne(toks, i, [Mark(Tok.OBrace)], 0);
    AtOne(toks, i + 1 + |PrintBody(body)|, [Mark(Tok.CBrace)], 0);
    BodyBack(toks, i + 1, body);
  }

  lemma {:induction false} BodyBack(toks: seq<Tok.Token>, i: nat, body: Stmts)
    requires WrittenIn(body) && TokensAt(toks, i, PrintBody(body)) && Is(toks, i + |PrintBody(body)|, Tok.CBrace)
    ensures ReadBody(toks, i) == Reading(body, i + |PrintBody(body)|, 0)
    decreases body, 1
  {
    hide TokensAt, PrintStmt, ReadStmt, Written;
    match body
    case NoStmts =>
    case MoreStmts(s, next) =>
      var j := i + |PrintStmt(s)|;
      AtSum(toks, i, PrintStmt(s), PrintBody(next));
      StmtOpens(toks, i, s);
      BodyNext(toks, j, next);
      StmtBack(toks, i, s);
      BodyBack(toks, j, next);
      JoinOne(s, next);
  }

  lemma JoinOne(s: Stmt, next: Stmts)
    ensures Join(Single(s), next) == MoreStmts(s, next)
  {
    assert Join(NoStmts, next) == next;
  }

  /** Neither a statement nor a closing brace begins with `else`. */
  lemma BodyNext(toks: seq<Tok.Token>, i: nat, body: Stmts)
    requires WrittenIn(body) && TokensAt(toks, i, PrintBody(body)) && Is(toks, i + |PrintBody(body)|, Tok.CBrace)
    ensures Next(toks, i)
  {
    hide TokensAt, PrintStmt, Written;
    match body
    case NoStmts =>
    case MoreStmts(s, next) =>
      AtSum(toks, i, PrintStmt(s), PrintBody(next));
      StmtOpens(toks, i, s);
  }

  // ----- lists of names -----

  /** `auto` with several names. */
  datatype Decl = Decl(name: string, size: nat)

  function PrintDecls(ds: seq<Decl>): seq<Tok.Token>
    requires ds != []
  {
    [Name(ds[0].name)] + PrintSize(ds[0].size)
    + (if |ds| == 1 then [Mark(Tok.Semicolon)] else [Mark(Tok.Comma)] + PrintDecls(ds[1..]))
  }

  function Declared(ds: seq<Decl>): Stmts {
    if ds == [] then NoStmts else MoreStmts(Stmt.Auto(ds[0].name, ds[0].size), Declared(ds[1..]))
  }

  /** What stands behind the first name and its size. */
  function PrintMore(ds: seq<Decl>): seq<Tok.Token>
    requires ds != []
  {
    if |ds| == 1 then [Mark(Tok.Semicolon)] else [Mark(Tok.Comma)] + PrintDecls(ds[1..])
  }

  lemma DeclsPrint(ds: seq<Decl>)
    requires ds != []
    ensures PrintDecls(ds) == [Name(ds[0].name)] + (PrintSize(ds[0].size) + PrintMore(ds))
    ensures PrintMore(ds) != [] && (PrintMore(ds)[0] == Mark(Tok.Semicolon) || PrintMore(ds)[0] == Mark(Tok.Comma))
  {
    hide PrintSize;
  }

  lemma DeclaredCons(ds: seq<Decl>)
    requires ds != []
    ensures Declared(ds) == MoreStmts(Stmt.Auto(ds[0].name, ds[0].size), Declared(ds[1..]))
    ensures |ds| == 1 ==> Declared(ds[1..]) == NoStmts && PrintMore(ds) == [Mark(Tok.Semicolon)]
    ensures |ds| > 1 ==> PrintMore(ds) == [Mark(Tok.Comma)] + PrintDecls(ds[1..])
  {
    hide PrintDecls;
  }

  /** The last name of a list. */
  lemma AutosLast(toks: seq<Tok.Token>, i: nat, n: nat, j: nat)
    requires Is(toks, i, Tok.Identifier) && ReadSize(toks, i + 1, true) == Sized(n, j, 0) && Is(toks, j, Tok.Semicolon)
    ensures ReadAutos(toks, i) == Reading(Single(Stmt.Auto(toks[i].lexeme, n)), j + 1, 0)
  {
    hide ReadSize;
  }

  /** Any other name. */
  lemma AutosCons(toks: seq<Tok.Token>, i: nat, n: nat, j: nat, next: Stmts, end: nat)
    requires Is(toks, i, Tok.Identifier) && ReadSize(toks, i + 1, true) == Sized(n, j, 0) && Is(toks, j, Tok.Comma)
    requires i < j && ReadAutos(toks, j + 1) == Reading(next, end, 0)
    ensures ReadAutos(toks, i) == Reading(MoreStmts(Stmt.Auto(toks[i].lexeme, n), next), end, 0)
  {
    hide ReadSize;
  }

  /** One `auto` statement with a list of names is read as one declaration for each. */
  lemma {:induction false} AutosBack(toks: seq<Tok.Token>, i: nat, ds: seq<Decl>)
    requires ds != [] && TokensAt(toks, i, PrintDecls(ds))
    ensures ReadAutos(toks, i) == Reading(Declared(ds), i + |PrintDecls(ds)|, 0)
    decreases |ds|
  {
    hide TokensAt, ReadSize, PrintSize, ReadAutos, PrintDecls, PrintMore, Declared;
    DeclaredCons(ds);
    var x, n, rest := ds[0].name, ds[0].size, PrintMore(ds);
    DeclsPrint(ds);
    AtSum(toks, i, [Name(x)], PrintSize(n) + rest);
    AtOne(toks, i, [Name(x)], 0);
    SizeThen(toks, i + 1, n, rest);
    var j := i + 1 + |PrintSize(n)|;
    if |ds| == 1 {
      AutosLast(toks, i, n, j);
    } else {
      AtSum(toks, j, [Mark(Tok.Comma)], PrintDecls(ds[1..]));
      AutosBack(toks, j + 1, ds[1..]);
      AutosCons(toks, i, n, j, Declared(ds[1..]), j + 1 + |PrintDecls(ds[1..])|);
    }
  }

  lemma SizeThen(toks: seq<Tok.Token>, i: nat, n: nat, rest: seq<Tok.Token>)
    requires TokensAt(toks, i, PrintSize(n) + rest) && rest != [] && !rest[0].kind.OBracket?
    ensures ReadSize(toks, i, true) == Sized(n, i + |PrintSize(n)|, 0)
    ensures TokensAt(toks, i + |PrintSize(n)|, rest)
    ensures i + |PrintSize(n)| < |toks| && toks[i + |PrintSize(n)|] == rest[0]
  {
    hide TokensAt;
    AtSum(toks, i, PrintSize(n), rest);
    AtOne(toks, i + |PrintSize(n)|, rest, 0);
    if n != 1 {
      var p := [Mark(Tok.OBracket), Number(n), Mark(Tok.CBracket)];
      AtOne(toks, i, p, 0);
      AtOne(toks, i, p, 1);
      AtOne(toks, i, p, 2);
    }
  }

  // ----- files -----

  function PrintParams(names: seq<string>): seq<Tok.Token> {
    if names == [] then []
    else [Name(names[0])] + (if |names| == 1 then [] else [Mark(Tok.Comma)]) + PrintParams(names[1..])
  }

  function PrintItem(x: Item): seq<Tok.Token> {
    match x
    case FunctionItem(name, params, body) =>
      [Name(name), Mark(Tok.OPren)] + PrintParams(params) + [Mark(Tok.CPren)] + PrintStmt(body)
    case GlobalItem(name, size) => [Name(name)] + PrintSize(size) + [Mark(Tok.Semicolon)]
    case ExtrnItem(name) => [Mark(Tok.Extrn), Name(name), Mark(Tok.Semicolon)]
  }

  function PrintFile(items: seq<Item>): seq<Tok.Token> {
    if items == [] then [] else PrintItem(items[0]) + PrintFile(items[1..])
  }

  /** Function bodies are compound statements. */
  predicate WrittenItem(x: Item) {
    x.FunctionItem? ==> x.body.Block? && Written(x.body)
  }

  lemma {:induction false} ParamsBack(toks: seq<Tok.Token>, i: nat, names: seq<string>)
    requires TokensAt(toks, i, PrintParams(names)) && Is(toks, i + |PrintParams(names)|, Tok.CPren)
    ensures ReadParams(toks, i) == Params(names, i + |PrintParams(names)|)
    decreases |names|
  {
    hide TokensAt;
    if names != [] {
      var head := [Name(names[0])] + (if |names| == 1 then [] else [Mark(Tok.Comma)]);
      AtSum(toks, i, head, PrintParams(names[1..]));
      AtOne(toks, i, head, 0);
      if |names| > 1 {
        AtOne(toks, i, head, 1);
      }
      assert names == [names[0]] + names[1..];
      ParamsBack(toks, i + |head|, names[1..]);
    }
  }

  lemma FunctionPrint(x: Item)
    requires x.FunctionItem?
    ensures PrintItem(x) == [Name(x.name), Mark(Tok.OPren)] + PrintParams(x.params)
      + ([Mark(Tok.CPren)] + PrintStmt(x.body))
  {
    hide PrintParams, PrintStmt;
  }

  /** A function definition, given its parts. */
  lemma FunctionRead(toks: seq<Tok.Token>, i: nat, params: seq<string>, j: nat, s: Stmt, end: nat)
    requires Is(toks, i, Tok.Identifier) && Is(toks, i + 1, Tok.OPren) && ReadParams(toks, i + 2) == Params(params, j)
    requires Is(toks, j + 1, Tok.OBrace) && ReadStmt(toks, j + 1) == Reading(Single(s), end, 0)
    ensures ReadItem(toks, i) == ReadingItems([FunctionItem(toks[i].lexeme, params, s)], end, 0)
  {
    hide ReadParams, ReadStmt, ReadGlobals, ReadExtrns;
  }

  lemma FunctionBack(toks: seq<Tok.Token>, i: nat, x: Item)
    requires x.FunctionItem? && WrittenItem(x) && TokensAt(toks, i, PrintItem(x))
    ensures ReadItem(toks, i) == ReadingItems([x], i + |PrintItem(x)|, 0) && i < |toks|
  {
    hide TokensAt, ReadStmt, PrintParams, ReadParams, PrintBody, Written, ReadItem, PrintStmt, PrintItem, PrintScope;
    var head := [Name(x.name), Mark(Tok.OPren)];
    var params, close, body := PrintParams(x.params), [Mark(Tok.CPren)], PrintStmt(x.body);
    FunctionPrint(x);
    AtThree(toks, i, head, params, close + body);
    AtSum(toks, i + 2 + |params|, close, body);
    AtOne(toks, i, head, 0);
    AtOne(toks, i, head, 1);
    var j := i + 2 + |params|;
    AtOne(toks, j, close, 0);
    ParamsBack(toks, i + 2, x.params);
    BodyWritten(x.body);
    BlockBack(toks, j + 1, x.body.body);
    ScopeBack(toks, j + 1, x.body.body);
    FunctionRead(toks, i, x.params, j, x.body, j + 1 + |body|);
  }

  lemma BodyWritten(s: Stmt)
    requires s.Block? && Written(s)
    ensures WrittenIn(s.body) && PrintStmt(s) == PrintScope(s.body)
  {
  }

  lemma ItemBack(toks: seq<Tok.Token>, i: nat, x: Item)
    requires WrittenItem(x) && TokensAt(toks, i, PrintItem(x))
    ensures i < |toks| && ReadItem(toks, i) == ReadingItems([x], i + |PrintItem(x)|, 0)
  {
    hide TokensAt, PrintItem, ReadItem, WrittenItem;
    match x
    case FunctionItem(_, _, _) => FunctionBack(toks, i, x);
    case GlobalItem(name, size) => GlobalItemBack(toks, i, name, size);
    case ExtrnItem(name) => ExtrnItemBack(toks, i, name);
  }

  lemma GlobalItemBack(toks: seq<Tok.Token>, i: nat, name: string, size: nat)
    requires TokensAt(toks, i, PrintItem(GlobalItem(name, size)))
    ensures i < |toks|
    ensures ReadItem(toks, i) == ReadingItems([GlobalItem(name, size)], i + |PrintItem(GlobalItem(name, size))|, 0)
  {
    hide TokensAt, PrintSize, ReadSize, ReadItem, PrintItem;
    var tail := PrintSize(size) + [Mark(Tok.Semicolon)];
    GlobalPrint(name, size);
    AtSum(toks, i, [Name(name)], tail);
    AtOne(toks, i, [Name(name)], 0);
    AtOne(toks, i + 1, tail, 0);
    SizeBack(toks, i + 1, size, false);
    TailOpens(size);
    GlobalBack(toks, i, name, size);
  }

  lemma GlobalPrint(name: string, size: nat)
    ensures PrintItem(GlobalItem(name, size)) == [Name(name)] + (PrintSize(size) + [Mark(Tok.Semicolon)])
  {
    hide PrintSize;
  }

  lemma TailOpens(size: nat)
    ensures !(PrintSize(size) + [Mark(Tok.Semicolon)])[0].kind.OPren?
  {
  }

  lemma ExtrnItemBack(toks: seq<Tok.Token>, i: nat, name: string)
    requires TokensAt(toks, i, PrintItem(ExtrnItem(name)))
    ensures i < |toks| && ReadItem(toks, i) == ReadingItems([ExtrnItem(name)], i + |PrintItem(ExtrnItem(name))|, 0)
  {
    hide TokensAt, ReadFunction, ReadGlobals;
    var p := PrintItem(ExtrnItem(name));
    AtOne(toks, i, p, 0);
    AtOne(toks, i, p, 1);
    AtOne(toks, i, p, 2);
    assert ReadExtrns(toks, i + 1) == Reading(Single(Stmt.Extrn(name)), i + 3, 0);
    assert Extrns(Single(Stmt.Extrn(name))) == [ExtrnItem(name)] + Extrns(NoStmts);
  }

  lemma GlobalBack(toks: seq<Tok.Token>, i: nat, name: string, size: nat)
    requires Is(toks, i, Tok.Identifier) && toks[i].lexeme == name
    requires ReadSize(toks, i + 1, false) == Sized(size, i + 1 + |PrintSize(size)|, 0)
    requires Is(toks, i + 1 + |PrintSize(size)|, Tok.Semicolon)
    requires i + 1 < |toks| && !toks[i + 1].kind.OPren?
    ensures ReadItem(toks, i) == ReadingItems([GlobalItem(name, size)], i + 2 + |PrintSize(size)|, 0)
  {
    hide PrintSize, ReadSize;
  }

  /** Print, then parse: a whole file comes back, definition by definition. */
  lemma {:induction false} FileBack(toks: seq<Tok.Token>, i: nat, items: seq<Item>)
    requires i <= |toks| && toks[i..] == PrintFile(items)
    requires forall x :: x in items ==> WrittenItem(x)
    ensures ReadFile(toks, i) == ReadingItems(items, |toks|, 0)
    decreases |items|
  {
    hide PrintItem, ReadItem, WrittenItem;
    if items != [] {
      var p, rest := PrintItem(items[0]), PrintFile(items[1..]);
      FileSplit(toks, i, p, rest);
      ItemBack(toks, i, items[0]);
      FileBack(toks, i + |p|, items[1..]);
      assert items == [items[0]] + items[1..];
    }
  }

  lemma FileSplit(toks: seq<Tok.Token>, i: nat, p: seq<Tok.Token>, rest: seq<Tok.Token>)
    requires i <= |toks| && toks[i..] == p + rest
    ensures TokensAt(toks, i, p) && i + |p| <= |toks| && toks[i + |p|..] == rest
  {
    assert |toks| == i + |p| + |rest|;
    assert toks[i..i + |p|] == toks[i..][..|p|] == (p + rest)[..|p|];
    assert toks[i + |p|..] == toks[i..][|p|..] == (p + rest)[|p|..];
  }

  /** The printed form of a file is read without a message, and gives the file back. */
  lemma PrintThenRead(items: seq<Item>)
    requires forall x :: x in items ==> WrittenItem(x)
    ensures ReadFile(PrintFile(items), 0) == ReadingItems(items, |PrintFile(items)|, 0)
  {
    hide PrintFile, ReadFile, WrittenItem;
    FileBack(PrintFile(items), 0, items);
  }

  /** The whole front end: the text of a file is lexed and parsed back to the file, without a
      message, when its names are words, its numbers spell their values and its strings are
      numbered in order. */
  lemma TextThenFile(items: seq<Item>)
    requires forall x :: x in items ==> WrittenItem(x)
    requires L.CanonicalAll(PrintFile(items), 0)
    ensures L.LexFrom(L.FileOf(PrintFile(items)), 0, 0) == L.Lexed(PrintFile(items))
    ensures ReadFile(PrintFile(items), 0) == ReadingItems(items, |PrintFile(items)|, 0)
  {
    hide PrintFile, ReadFile, WrittenItem, L.FileOf, L.LexFrom, L.CanonicalAll;
    L.TokensComeBack(PrintFile(items));
    PrintThenRead(items);
  }

  /** Indexing is text like the rest: an index can be spelled when its parts can. */
  lemma IndexSpelled(x: string, e: Expr, strs: nat)
    requires L.Canonical(Name(x), strs) && L.CanonicalAll(Print(e), strs)
    ensures L.CanonicalAll(Print(Indexed(Atom(Tok.Identifier, x, 0), e)), strs)
  {
    hide Conc, L.Canonical;
    var inner := Print(e);
    var close := [Mark(Tok.CBracket)];
    BracketsSpelled(strs);
    MoreSpelled(inner, close, strs) by { CloseSpelled(inner, strs); }
    var open := [Mark(Tok.OBracket)] + (inner + close);
    assert open[1..] == inner + close;
    var all := [Name(x)] + open;
    assert all[1..] == open;
    assert Print(Indexed(Atom(Tok.Identifier, x, 0), e)) == all by { IndexPrints(x, e); }
  }

  lemma IndexPrints(x: string, e: Expr)
    ensures Print(Indexed(Atom(Tok.Identifier, x, 0), e))
            == [Name(x)] + ([Mark(Tok.OBracket)] + (Print(e) + [Mark(Tok.CBracket)]))
  {
    hide Conc, Yield, IsIndexed;
    var t := Conc(Trident(), e, 0);
    ConcIndexed(Trident(), Atom(Tok.Identifier, x, 0), e, 0);
    YieldDef(Index(Name(x), t, true));
    assert [Name(x), Mark(Tok.OBracket)] + Yield(t) + [Mark(Tok.CBracket)]
        == [Name(x)] + ([Mark(Tok.OBracket)] + (Yield(t) + [Mark(Tok.CBracket)]));
  }

  lemma BracketsSpelled(strs: nat)
    ensures L.Canonical(Mark(Tok.OBracket), strs) && L.Canonical(Mark(Tok.CBracket), strs)
  {
  }

  lemma {:induction false} CloseSpelled(toks: seq<Tok.Token>, strs: nat)
    ensures forall n: nat :: L.CanonicalAll([Mark(Tok.CBracket)], n)
  {
    forall n: nat
      ensures L.CanonicalAll([Mark(Tok.CBracket)], n)
    {
      BracketsSpelled(n);
      assert [Mark(Tok.CBracket)][1..] == [];
    }
  }

  lemma {:induction false} MoreSpelled(a: seq<Tok.Token>, b: seq<Tok.Token>, strs: nat)
    requires L.CanonicalAll(a, strs) && forall n: nat :: L.CanonicalAll(b, n)
    ensures L.CanonicalAll(a + b, strs)
    decreases |a|
  {
    hide L.Canonical;
    if a == [] {
      assert a + b == b;
    } else {
      MoreSpelled(a[1..], b, if a[0].kind.StrLit? then strs + 1 else strs);
      assert (a + b)[1..] == a[1..] + b;
    }
  }

  // ----- how operators group -----

  /** An operand: a name, a number, a call, an index, something in parentheses or behind a prefix. */
  predicate Operand(g: Grammar, t: Tree) {
    !t.Infix? && Shaped(g, t, 0)
  }

  /** `x o1 y o2 z` and a semicolon, from i on. */
  predicate TwoOperators(toks: seq<Tok.Token>, i: nat, x: Tree, o1: Tok.Token, y: Tree, o2: Tok.Token, z: Tree) {
    TokensAt(toks, i, Yield(x) + [o1] + Yield(y) + [o2] + Yield(z) + [Mark(Tok.Semicolon)])
  }

  lemma TreeReads(g: Grammar, toks: seq<Tok.Token>, i: nat, t: Tree)
    requires Sane(g) && g.prec(Tok.Semicolon) == 0 && Shaped(g, t, 0)
      && TokensAt(toks, i, Yield(t) + [Mark(Tok.Semicolon)])
    ensures ParseExpr(g, toks, i, 0) == Parsed(t, i + Size(t))
  {
    hide ParseExpr, Reads, Shaped, TokensAt, Yield;
    AtSum(toks, i, Yield(t), [Mark(Tok.Semicolon)]);
    AtOne(toks, i + Size(t), [Mark(Tok.Semicolon)], 0);
    YieldReads(g, toks, i, t, 0);
    ExprComplete(g, toks, i, t, 0);
  }

  lemma PairYields(l: Tree, tok: Tok.Token, r: Tree)
    ensures Yield(Infix(l, tok, r)) == Yield(l) + [tok] + Yield(r)
  {
  }

  lemma BothYields(x: Tree, o1: Tok.Token, y: Tree, o2: Tok.Token, z: Tree)
    ensures Yield(Infix(Infix(x, o1, y), o2, z)) == Yield(x) + [o1] + Yield(y) + [o2] + Yield(z)
    ensures Yield(Infix(x, o1, Infix(y, o2, z))) == Yield(x) + [o1] + Yield(y) + [o2] + Yield(z)
  {
    hide *;
    PairYields(x, o1, y);
    PairYields(y, o2, z);
    PairYields(Infix(x, o1, y), o2, z);
    PairYields(x, o1, Infix(y, o2, z));
    FiveParts(Yield(x), [o1], Yield(y), [o2], Yield(z));
  }

  lemma FiveParts(a: seq<Tok.Token>, b: seq<Tok.Token>, c: seq<Tok.Token>, d: seq<Tok.Token>, e: seq<Tok.Token>)
    ensures a + b + (c + d + e) == a + b + c + d + e
  {
    assert a + b + (c + d + e) == a + b + (c + d) + e;
  }

  /** In any grammar, of two operators the first takes the operand between them exactly when it has
      the higher level, or the same level and that level groups to the left. */
  lemma Groups(g: Grammar, toks: seq<Tok.Token>, i: nat, x: Tree, o1: Tok.Token, y: Tree, o2: Tok.Token, z: Tree)
    requires Sane(g) && g.prec(Tok.Semicolon) == 0 && g.prec(o1.kind) > 0 && g.prec(o2.kind) > 0
    requires Operand(g, x) && Operand(g, y) && Operand(g, z) && TwoOperators(toks, i, x, o1, y, o2, z)
    ensures
      var k1, k2 := g.prec(o1.kind), g.prec(o2.kind);
      var first := k1 > k2 || (k1 == k2 && g.left(k1));
      ParseExpr(g, toks, i, 0)
      == Parsed(if first then Infix(Infix(x, o1, y), o2, z) else Infix(x, o1, Infix(y, o2, z)),
                i + Size(x) + 1 + Size(y) + 1 + Size(z))
  {
    hide ParseExpr, TokensAt, Yield, Shaped, Operand, Size, Sane;
    BothYields(x, o1, y, o2, z);
    GroupShaped(g, x, o1, y, o2, z);
    var k1, k2 := g.prec(o1.kind), g.prec(o2.kind);
    var t := if k1 > k2 || (k1 == k2 && g.left(k1)) then Infix(Infix(x, o1, y), o2, z)
      else Infix(x, o1, Infix(y, o2, z));
    TreeReads(g, toks, i, t);
    BothSizes(x, o1, y, o2, z);
  }

  lemma BothSizes(x: Tree, o1: Tok.Token, y: Tree, o2: Tok.Token, z: Tree)
    ensures Size(Infix(Infix(x, o1, y), o2, z)) == Size(x) + 1 + Size(y) + 1 + Size(z)
    ensures Size(Infix(x, o1, Infix(y, o2, z))) == Size(x) + 1 + Size(y) + 1 + Size(z)
  {
    assert Size(Infix(x, o1, y)) == Size(x) + 1 + Size(y);
    assert Size(Infix(y, o2, z)) == Size(y) + 1 + Size(z);
  }

  lemma GroupShaped(g: Grammar, x: Tree, o1: Tok.Token, y: Tree, o2: Tok.Token, z: Tree)
    requires Operand(g, x) && Operand(g, y) && Operand(g, z) && g.prec(o1.kind) > 0 && g.prec(o2.kind) > 0
    ensures
      var k1, k2 := g.prec(o1.kind), g.prec(o2.kind);
      if k1 > k2 || (k1 == k2 && g.left(k1)) then Shaped(g, Infix(Infix(x, o1, y), o2, z), 0)
      else Shaped(g, Infix(x, o1, Infix(y, o2, z)), 0)
  {
    OperandShaped(g, x);
    OperandShaped(g, y);
    OperandShaped(g, z);
    var k1, k2 := g.prec(o1.kind), g.prec(o2.kind);
    hide Operand;
    PairShaped(g, x, o1, y, 0);
    if k1 > k2 || (k1 == k2 && g.left(k1)) {
      PairShaped(g, Infix(x, o1, y), o2, z, 0);
    } else {
      PairShaped(g, y, o2, z, Right(g, k1));
      PairShaped(g, x, o1, Infix(y, o2, z), 0);
    }
  }

  lemma PairShaped(g: Grammar, l: Tree, tok: Tok.Token, r: Tree, q: int)
    requires 0 < g.prec(tok.kind) && q <= g.prec(tok.kind) && Shaped(g, l, q)
      && Shaped(g, r, Right(g, g.prec(tok.kind)))
    requires l.Infix? ==> g.prec(tok.kind) < Right(g, g.prec(l.tok.kind))
    ensures Shaped(g, Infix(l, tok, r), q)
  {
  }

  /** The threshold does not matter to an operand. */
  lemma OperandShaped(g: Grammar, t: Tree)
    requires Operand(g, t)
    ensures forall q: int :: Shaped(g, t, q)
  {
  }

  /** `x o1 y o2 z` with two operators of one level groups to the left exactly when they are
      assignments: everything else groups to the right, so `a - b - c` is `a - (b - c)`. */
  lemma SameLevelGroups(toks: seq<Tok.Token>, i: nat, x: Tree, o1: Tok.Token, y: Tree, o2: Tok.Token, z: Tree)
    requires Operand(Trident(), x) && Operand(Trident(), y) && Operand(Trident(), z)
    requires Prec(o1.kind) == Prec(o2.kind) > 0 && TwoOperators(toks, i, x, o1, y, o2, z)
    ensures
      ParseExpr(Trident(), toks, i, 0)
      == Parsed(if o1.kind.Assign? then Infix(Infix(x, o1, y), o2, z) else Infix(x, o1, Infix(y, o2, z)),
                i + Size(x) + 1 + Size(y) + 1 + Size(z))
  {
    hide ParseExpr, TwoOperators, Operand;
    Groups(Trident(), toks, i, x, o1, y, o2, z);
    OnlyAssign(o1.kind);
  }

  lemma OnlyAssign(kind: Tok.Kind)
    ensures Prec(kind) == 1 <==> kind.Assign?
  {
  }

  /** Of two operators of different levels the higher binds tighter, on either side. */
  lemma HigherBindsTighter(toks: seq<Tok.Token>, i: nat, x: Tree, o1: Tok.Token, y: Tree, o2: Tok.Token, z: Tree)
    requires Operand(Trident(), x) && Operand(Trident(), y) && Operand(Trident(), z)
    requires Prec(o1.kind) > 0 && Prec(o2.kind) > 0 && Prec(o1.kind) != Prec(o2.kind)
    requires TwoOperators(toks, i, x, o1, y, o2, z)
    ensures
      ParseExpr(Trident(), toks, i, 0)
      == Parsed(if Prec(o1.kind) > Prec(o2.kind) then Infix(Infix(x, o1, y), o2, z) else Infix(x, o1, Infix(y, o2, z)),
                i + Size(x) + 1 + Size(y) + 1 + Size(z))
  {
    hide ParseExpr, TwoOperators, Operand;
    Groups(Trident(), toks, i, x, o1, y, o2, z);
  }
}
