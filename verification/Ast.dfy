/** The token kinds of src/lexer.h. */
module Tokens {

  datatype Kind =
    | Unknown | EndOfToken
    | Identifier | IntLit | StrLit | Lable
    | Extrn | Auto | If | Else | While | Goto | Return
    | OBrace | CBrace | OPren | CPren | OBracket | CBracket | Semicolon | Colon | QMark
    | Comma | Not | Add | Sub | Mul | Dev | Mod
    | BitAnd | BitOr | BitshiftL | BitshiftR
    | Equal | NotEqual | Greater | GreaterEqual | Lesser | LesserEqual
    | Assign | Inc | Dec

  /** A token without its position. */
  datatype Token = Token(kind: Kind, lexeme: string, intLit: nat)
}

/** The syntax tree of src/ast.h. The `next` links of the C lists are the
    `Cons` cells of the lists below. */
module Ast {
  import Tok = Tokens

  datatype Expr =
    | Atom(kind: Tok.Kind, value: string, intLit: nat)
    | Unary(op: Tok.Kind, node: Expr)
    | Binary(left: Expr, bop: Tok.Kind, right: Expr)
    | FunctionCall(name: string, args: Exprs)

  datatype Exprs = NoExprs | MoreExprs(head: Expr, next: Exprs)

  datatype Stmt =
    | Return(value: Expr)
    | Block(body: Stmts)
    | Auto(name: string, size: nat)
    | Extrn(name: string)
    | Simple(expr: Expr)
    | If(links: Chain)
    | While(cond: Expr, body: Stmts)
    | Lable(name: string)
    | Goto(name: string)

  /** The links of an `if`: itself, each `else if`, and at the end an `else` or nothing. */
  datatype Chain = NoChain | Link(cond: Expr, body: Stmts, chain: Chain) | Else(body: Stmts)

  datatype Stmts = NoStmts | MoreStmts(head: Stmt, next: Stmts)

  /** A function definition; its body is a compound statement. */
  datatype Function = Function(name: string, params: seq<string>, body: Stmts)

  /** A whole file: its functions in text order and its global names with their sizes. */
  datatype Program = Program(fns: seq<Function>, globals: map<string, nat>)

  /** The number of bytes in a word, as the parser writes it into the tree of an index. */
  function Eight(): Expr {
    Atom(Tok.IntLit, "", 8)
  }

  /** The tree of `x[e]`: `*(e * 8 + &x)`. */
  function Indexed(x: Expr, e: Expr): Expr {
    Unary(Tok.Mul, Binary(Binary(e, Tok.Mul, Eight()), Tok.Add, Unary(Tok.BitAnd, x)))
  }

  function Join(a: Stmts, b: Stmts): Stmts {
    match a
    case NoStmts => b
    case MoreStmts(s, next) => MoreStmts(s, Join(next, b))
  }

  function Single(s: Stmt): Stmts {
    MoreStmts(s, NoStmts)
  }

  function Argc(args: Exprs): nat {
    match args
    case NoExprs => 0
    case MoreExprs(_, next) => 1 + Argc(next)
  }

  /** The number of `auto` declarations in text order inside a statement. */
  function Autos(s: Stmt): nat {
    match s
    case Auto(_, _) => 1
    case Block(body) => AutosIn(body)
    case If(links) => AutosOf(links)
    case While(_, body) => AutosIn(body)
    case _ => 0
  }

  function AutosOf(c: Chain): nat {
    match c
    case NoChain => 0
    case Link(_, body, chain) => AutosIn(body) + AutosOf(chain)
    case Else(body) => AutosIn(body)
  }

  function AutosIn(ss: Stmts): nat {
    match ss
    case NoStmts => 0
    case MoreStmts(s, next) => Autos(s) + AutosIn(next)
  }

  /** Every parameter and every `auto` owns one storage cell. */
  function Cells(f: Function): nat {
    |f.params| + AutosIn(f.body)
  }

  /** The labels defined in a statement, in text order. */
  function Labels(s: Stmt): seq<string> {
    match s
    case Lable(name) => [name]
    case Block(body) => LabelsIn(body)
    case If(links) => LabelsOf(links)
    case While(_, body) => LabelsIn(body)
    case _ => []
  }

  function LabelsOf(c: Chain): seq<string> {
    match c
    case NoChain => []
    case Link(_, body, chain) => LabelsIn(body) + LabelsOf(chain)
    case Else(body) => LabelsIn(body)
  }

  function LabelsIn(ss: Stmts): seq<string> {
    match ss
    case NoStmts => []
    case MoreStmts(s, next) => Labels(s) + LabelsIn(next)
  }

  predicate Distinct<T(==)>(xs: seq<T>) {
    forall i, j :: 0 <= i < j < |xs| ==> xs[i] != xs[j]
  }

  function FindFunction(fns: seq<Function>, name: string): (r: int)
    ensures -1 <= r < |fns|
    ensures r >= 0 ==> fns[r].name == name
    ensures forall i :: 0 <= i < (if r < 0 then |fns| else r) ==> fns[i].name != name
  {
    FindFrom(fns, name, 0)
  }

  function FindFrom(fns: seq<Function>, name: string, i: nat): (r: int)
    requires i <= |fns|
    requires forall j :: 0 <= j < i ==> fns[j].name != name
    ensures -1 <= r < |fns|
    ensures r >= 0 ==> fns[r].name == name
    ensures forall k :: 0 <= k < (if r < 0 then |fns| else r) ==> fns[k].name != name
    decreases |fns| - i
  {
    if i == |fns| then -1
    else if fns[i].name == name then i
    else FindFrom(fns, name, i + 1)
  }
}

/** Chains of symbol tables: `AstScope.symtab` and `AstScope.parent`. */
module Scopes {

  /** A table maps a local name to a number. While lowering, the number is the temp
      that holds the address of the cell (0: no cell yet). In the source semantics it is
      the declaration's position in the text of its function. */
  datatype Scope =
    | Globals(names: set<string>)
    | Inner(symtab: map<string, nat>, parent: Scope)

  datatype Found = Local(n: nat) | Global | Missing

  function Lookup(sc: Scope, name: string): Found {
    match sc
    case Globals(names) => if name in names then Global else Missing
    case Inner(tab, parent) => if name in tab then Local(tab[name]) else Lookup(parent, name)
  }

  /** Overwrites the entry that `Lookup` finds. */
  function SetLocal(sc: Scope, name: string, n: nat): Scope {
    match sc
    case Globals(_) => sc
    case Inner(tab, parent) =>
      if name in tab then Inner(tab[name := n], parent)
      else Inner(tab, SetLocal(parent, name, n))
  }
}
