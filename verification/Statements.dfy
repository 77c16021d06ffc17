/** What src/parser.c reads from a token list: statements, functions and whole files. */
module Statements {
  import opened Ast
  import opened Expressions
  import Tok = Tokens
  import W = Words

  /** `get_op_prec` of src/expr.c. */
  function Prec(kind: Tok.Kind): int {
    match kind
    case Assign => 1
    case BitOr => 3
    case BitAnd => 4
    case Lesser => 5
    case Greater => 5
    case LesserEqual => 5
    case GreaterEqual => 5
    case Equal => 6
    case NotEqual => 6
    case BitshiftL => 7
    case BitshiftR => 7
    case Add => 8
    case Sub => 8
    case Mul => 9
    case Dev => 9
    case Mod => 9
    case Comma => 0
    case CPren => 0
    case CBracket => 0
    case Semicolon => 0
    case _ => -1
  }

  /** Assignment groups to the left, everything else to the right. */
  function Trident(): Grammar {
    Grammar(Prec, (k: int) => k == 1)
  }

  /** Statements, the position behind them, and the number of messages about missing tokens.
      `Gone` is the end of the process. */
  datatype Reading = Gone | Reading(stmts: Stmts, at: nat, errors: nat)

  datatype ReadingExpr = GoneExpr | ReadingExpr(expr: Expr, at: nat, errors: nat)

  datatype ReadingChain = GoneChain | ReadingChain(chain: Chain, at: nat, errors: nat)

  /** Where `expect_and_consume` leaves the parser: on a mismatch, where it was. */
  function Past(toks: seq<Tok.Token>, i: nat, kind: Tok.Kind): (j: nat)
    requires i < |toks|
    ensures i <= j <= i + 1
  {
    i + One(toks[i].kind == kind)
  }

  function Miss(toks: seq<Tok.Token>, i: nat, kind: Tok.Kind): nat
    requires i < |toks|
  {
    One(toks[i].kind != kind)
  }

  function ReadExpr(toks: seq<Tok.Token>, i: nat): (r: ReadingExpr)
    ensures r.ReadingExpr? ==> i < r.at <= |toks|
  {
    match ParseExpr(Trident(), toks, i, 0)
    case Lost => GoneExpr
    case Parsed(t, j) => ReadingExpr(Abs(t), j, Missed(t))
  }

  predicate Is(toks: seq<Tok.Token>, i: nat, kind: Tok.Kind) {
    i < |toks| && toks[i].kind == kind
  }

  /** An optional `[n]` behind a declared name: the size, and what follows. */
  datatype Sized = NoSize | Sized(size: nat, at: nat, errors: nat)

  function ReadSize(toks: seq<Tok.Token>, i: nat, strict: bool): (r: Sized)
    ensures r.Sized? ==> i <= r.at <= |toks| || r.at == i
  {
    if !Is(toks, i, Tok.OBracket) then Sized(1, i, 0)
    else if i + 1 >= |toks| then NoSize
    else
      var n := toks[i + 1].intLit;
      var j := if strict then Past(toks, i + 1, Tok.IntLit) else i + 2;
      if j >= |toks| then NoSize
      else Sized(n, Past(toks, j, Tok.CBracket),
                 (if strict then Miss(toks, i + 1, Tok.IntLit) else 0) + Miss(toks, j, Tok.CBracket))
  }

  /** The names of an `auto`, from the first on. */
  function ReadAutos(toks: seq<Tok.Token>, i: nat): (r: Reading)
    ensures r.Reading? ==> i <= r.at <= |toks|
    decreases |toks| - i
  {
    if i >= |toks| then Gone
    else
      var name := toks[i].lexeme;
      var j := Past(toks, i, Tok.Identifier);
      match ReadSize(toks, j, true)
      case NoSize => Gone
      case Sized(size, k, errs) =>
        var here := Miss(toks, i, Tok.Identifier) + errs;
        if Is(toks, k, Tok.Comma) then
          match ReadAutos(toks, k + 1)
          case Gone => Gone
          case Reading(next, end, more) => Reading(MoreStmts(Stmt.Auto(name, size), next), end, here + more)
        else if k >= |toks| then Gone
        else Reading(Single(Stmt.Auto(name, size)), Past(toks, k, Tok.Semicolon), here + Miss(toks, k, Tok.Semicolon))
  }

  /** The names of an `extrn`, from the first on. */
  function ReadExtrns(toks: seq<Tok.Token>, i: nat): (r: Reading)
    ensures r.Reading? ==> i < r.at <= |toks|
    decreases |toks| - i
  {
    if i >= |toks| then Gone
    else
      var j := i + 1 + One(Is(toks, i + 1, Tok.Comma));
      if Is(toks, j, Tok.Semicolon) then Reading(Single(Stmt.Extrn(toks[i].lexeme)), j + 1, 0)
      else match ReadExtrns(toks, j)
        case Gone => Gone
        case Reading(next, end, more) => Reading(MoreStmts(Stmt.Extrn(toks[i].lexeme), next), end, more)
  }

  /** An expression and the semicolon behind it. */
  function ReadSemi(toks: seq<Tok.Token>, i: nat): (r: ReadingExpr)
    ensures r.ReadingExpr? ==> i < r.at <= |toks|
  {
    match ReadExpr(toks, i)
    case GoneExpr => GoneExpr
    case ReadingExpr(e, j, errs) =>
      if j >= |toks| then GoneExpr
      else ReadingExpr(e, Past(toks, j, Tok.Semicolon), errs + Miss(toks, j, Tok.Semicolon))
  }

  /** `( condition )`. */
  function ReadCondition(toks: seq<Tok.Token>, i: nat): (r: ReadingExpr)
    ensures r.ReadingExpr? ==> i < r.at <= |toks|
  {
    if i >= |toks| then GoneExpr
    else match ReadExpr(toks, Past(toks, i, Tok.OPren))
      case GoneExpr => GoneExpr
      case ReadingExpr(e, j, errs) =>
        if j >= |toks| then GoneExpr
        else ReadingExpr(e, Past(toks, j, Tok.CPren), Miss(toks, i, Tok.OPren) + errs + Miss(toks, j, Tok.CPren))
  }

  function Jump(toks: seq<Tok.Token>, i: nat): (r: Reading)
    ensures r.Reading? ==> i < r.at <= |toks|
  {
    if i + 2 >= |toks| then Gone
    else Reading(Single(Stmt.Goto(toks[i + 1].lexeme)), Past(toks, i + 2, Tok.Semicolon),
                 Miss(toks, i + 2, Tok.Semicolon))
  }

  /** A label, a stray comma or an expression. */
  function ReadPlain(toks: seq<Tok.Token>, i: nat): (r: Reading)
    requires i < |toks|
    ensures r.Reading? ==> i < r.at <= |toks|
  {
    if toks[i].kind.Identifier? && Is(toks, i + 1, Tok.Colon) then Reading(Single(Stmt.Lable(toks[i].lexeme)), i + 2, 0)
    else if toks[i].kind.Comma? then Reading(NoStmts, i + 1, 0)
    else
      match ReadSemi(toks, i)
      case GoneExpr => Gone
      case ReadingExpr(e, j, errs) => Reading(Single(Simple(e)), j, errs)
  }

  /** One call of `parse_statements_f`: usually one statement, but as many as there are names in
      an `auto` or `extrn`, and none for a stray comma. */
  function ReadStmt(toks: seq<Tok.Token>, i: nat): (r: Reading)
    ensures r.Reading? ==> i < r.at <= |toks|
    decreases |toks| - i, 1
  {
    if i >= |toks| then Gone
    else match toks[i].kind
      case Auto => ReadAutos(toks, i + 1)
      case Extrn => ReadExtrns(toks, i + 1)
      case Goto => Jump(toks, i)
      case OBrace =>
        (match ReadScope(toks, i)
         case Gone => Gone
         case Reading(body, j, errs) => Reading(Single(Block(body)), j, errs))
      case Return =>
        (match ReadSemi(toks, i + 1)
         case GoneExpr => Gone
         case ReadingExpr(e, j, errs) => Reading(Single(Stmt.Return(e)), j, errs))
      case If =>
        (match ReadIf(toks, i)
         case GoneChain => Gone
         case ReadingChain(links, j, errs) => Reading(Single(Stmt.If(links)), j, errs))
      case While => ReadWhile(toks, i)
      case _ => ReadPlain(toks, i)
  }

  function ReadWhile(toks: seq<Tok.Token>, i: nat): (r: Reading)
    ensures r.Reading? ==> i < r.at <= |toks|
    decreases |toks| - i, 0
  {
    match ReadCondition(toks, i + 1)
    case GoneExpr => Gone
    case ReadingExpr(cond, j, errs) =>
      match ReadScope(toks, j)
      case Gone => Gone
      case Reading(body, k, more) => Reading(Single(Stmt.While(cond, body)), k, errs + more)
  }

  /** An `if` at i, with the links behind it. */
  function ReadIf(toks: seq<Tok.Token>, i: nat): (r: ReadingChain)
    ensures r.ReadingChain? ==> i < r.at <= |toks| && r.chain.Link?
    decreases |toks| - i, 0
  {
    match ReadCondition(toks, i + 1)
    case GoneExpr => GoneChain
    case ReadingExpr(cond, j, errs) =>
      match ReadScope(toks, j)
      case Gone => GoneChain
      case Reading(body, k, more) =>
        match ReadElse(toks, k)
        case GoneChain => GoneChain
        case ReadingChain(chain, end, rest) => ReadingChain(Link(cond, body, chain), end, errs + more + rest)
  }

  function ReadElse(toks: seq<Tok.Token>, i: nat): (r: ReadingChain)
    ensures r.ReadingChain? ==> i <= r.at && (i <= |toks| ==> r.at <= |toks|)
    decreases |toks| - i, 2
  {
    if !Is(toks, i, Tok.Else) then ReadingChain(NoChain, i, 0)
    else if Is(toks, i + 1, Tok.If) then ReadIf(toks, i + 1)
    else
      match ReadScope(toks, i + 1)
      case Gone => GoneChain
      case Reading(body, j, errs) => ReadingChain(Else(body), j, errs)
  }

  /** A compound statement. */
  function ReadScope(toks: seq<Tok.Token>, i: nat): (r: Reading)
    ensures r.Reading? ==> i < r.at <= |toks|
    decreases if i < |toks| then |toks| - Past(toks, i, Tok.OBrace) else 0, 3
  {
    if i >= |toks| then Gone
    else match ReadBody(toks, Past(toks, i, Tok.OBrace))
      case Gone => Gone
      case Reading(body, j, errs) => Reading(body, j + 1, Miss(toks, i, Tok.OBrace) + errs)
  }

  /** Statements up to a closing brace. */
  function ReadBody(toks: seq<Tok.Token>, i: nat): (r: Reading)
    ensures r.Reading? ==> i <= r.at < |toks| && toks[r.at].kind.CBrace?
    decreases |toks| - i, 2
  {
    if i >= |toks| then Gone
    else if toks[i].kind.CBrace? then Reading(NoStmts, i, 0)
    else match ReadStmt(toks, i)
      case Gone => Gone
      case Reading(ss, j, errs) =>
        match ReadBody(toks, j)
        case Gone => Gone
        case Reading(rest, k, more) => Reading(Join(ss, rest), k, errs + more)
  }

  // ----- files -----

  /** The definitions of a file. The body of a function is any statement here; only a compound
      one can be lowered. */
  datatype Item =
    | FunctionItem(name: string, params: seq<string>, body: Stmt)
    | GlobalItem(name: string, size: nat)
    | ExtrnItem(name: string)

  datatype ReadingItems = GoneItems | ReadingItems(items: seq<Item>, at: nat, errors: nat)

  datatype Params = NoParams | Params(names: seq<string>, at: nat)

  /** Parameter names up to the closing parenthesis, each with or without a comma behind it. */
  function ReadParams(toks: seq<Tok.Token>, i: nat): (r: Params)
    ensures r.Params? ==> i <= r.at < |toks| && toks[r.at].kind.CPren?
    decreases |toks| - i
  {
    if i >= |toks| then NoParams
    else if toks[i].kind.CPren? then Params([], i)
    else match ReadParams(toks, i + 1 + One(Is(toks, i + 1, Tok.Comma)))
      case NoParams => NoParams
      case Params(names, j) => Params([toks[i].lexeme] + names, j)
  }

  /** A function whose opening parenthesis is at i. */
  function ReadFunction(toks: seq<Tok.Token>, name: string, i: nat): (r: ReadingItems)
    ensures r.ReadingItems? ==> i < r.at <= |toks|
  {
    match ReadParams(toks, i + 1)
    case NoParams => GoneItems
    case Params(names, j) =>
      if j + 1 >= |toks| then GoneItems
      else if toks[j + 1].kind.Auto? || toks[j + 1].kind.Extrn? || toks[j + 1].kind.Comma? then GoneItems
      else match ReadStmt(toks, j + 1)
        case Gone => GoneItems
        case Reading(ss, k, errs) =>
          if ss.MoreStmts? then ReadingItems([FunctionItem(name, names, ss.head)], k, errs) else GoneItems
  }

  /** The globals of one declaration; i is behind the name. */
  function ReadGlobals(toks: seq<Tok.Token>, name: string, i: nat): (r: ReadingItems)
    ensures r.ReadingItems? ==> i <= r.at <= |toks|
    decreases |toks| - i
  {
    match ReadSize(toks, i, false)
    case NoSize => GoneItems
    case Sized(size, j, errs) =>
      if Is(toks, j, Tok.Comma) then
        if j + 1 >= |toks| then GoneItems
        else match ReadGlobals(toks, toks[j + 1].lexeme, j + 2)
          case GoneItems => GoneItems
          case ReadingItems(items, k, more) => ReadingItems([GlobalItem(name, size)] + items, k, errs + more)
      else if j >= |toks| then GoneItems
      else ReadingItems([GlobalItem(name, size)], Past(toks, j, Tok.Semicolon), errs + Miss(toks, j, Tok.Semicolon))
  }

  function Extrns(ss: Stmts): seq<Item> {
    match ss
    case NoStmts => []
    case MoreStmts(s, next) => (if s.Extrn? then [ExtrnItem(s.name)] else []) + Extrns(next)
  }

  /** One definition, or one unexpected token. */
  function ReadItem(toks: seq<Tok.Token>, i: nat): (r: ReadingItems)
    requires i < |toks|
    ensures r.ReadingItems? ==> i < r.at <= |toks|
  {
    if toks[i].kind.Identifier? then
      if i + 1 >= |toks| then GoneItems
      else if toks[i + 1].kind.OPren? then ReadFunction(toks, toks[i].lexeme, i + 1)
      else ReadGlobals(toks, toks[i].lexeme, i + 1)
    else if toks[i].kind.Extrn? then
      match ReadExtrns(toks, i + 1)
      case Gone => GoneItems
      case Reading(ss, j, errs) => ReadingItems(Extrns(ss), j, errs)
    else ReadingItems([], i + 1, 1)
  }

  /** The whole file from i on. */
  function ReadFile(toks: seq<Tok.Token>, i: nat): (r: ReadingItems)
    requires i <= |toks|
    ensures r.ReadingItems? ==> r.at == |toks|
    decreases |toks| - i
  {
    if i == |toks| then ReadingItems([], i, 0)
    else match ReadItem(toks, i)
      case GoneItems => GoneItems
      case ReadingItems(items, j, errs) =>
        match ReadFile(toks, j)
        case GoneItems => GoneItems
        case ReadingItems(rest, k, more) => ReadingItems(items + rest, k, errs + more)
  }

  /** The functions and globals of a file; none where a function body is not compound, which the
      lowering does not handle. A global declared twice has its last size. */
  function ProgramOf(items: seq<Item>): W.Option<Program> {
    if items == [] then W.Some(Program([], map[]))
    else
      var n := |items| - 1;
      match ProgramOf(items[..n])
      case None => W.None
      case Some(p) =>
        match items[n]
        case FunctionItem(name, params, body) =>
          if body.Block? then W.Some(p.(fns := p.fns + [Function(name, params, body.body)])) else W.None
        case GlobalItem(name, size) => W.Some(p.(globals := p.globals[name := size]))
        case ExtrnItem(_) => W.Some(p)
  }
}
