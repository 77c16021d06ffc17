/** src/expr.c and src/parser.c in their own form: a parser that steps through the token list.
    Every method is proved to read what the functions of `Expressions` and `Statements` say. `ok` is
    false where the process would end: at an unknown operator, or past the last token. */
module Parsers {
  import opened Ast
  import opened Expressions
  import opened Statements
  import opened Nodes
  import Tok = Tokens

  class Parser {
    const toks: seq<Tok.Token>
    var i: nat               // the position of p->tok
    var errors: nat          // messages printed so far
    var scopes: seq<Record>  // the scopes opened so far, the globals first
    var lables: Table        // p->t_lable_tab

    ghost predicate Valid()
      reads this
    {
      i <= |toks|
    }

    constructor (tokens: seq<Tok.Token>)
      ensures toks == tokens && i == 0 && errors == 0 && Valid()
      ensures scopes == [Root(map[])] && lables == map[]
    {
      toks, i, errors, scopes, lables := tokens, 0, 0, [Root(map[])], map[];
    }

    predicate IsKind(kind: Tok.Kind)
      reads this
    {
      i < |toks| && toks[i].kind == kind
    }

    method PConsume()
      requires Valid()
      modifies this`i
      ensures Valid() && i == if old(i) < |toks| then old(i) + 1 else old(i)
    {
      if i < |toks| {
        i := i + 1;
      }
    }

    /** On a mismatch there is a message and no step. */
    method ExpectAndConsume(kind: Tok.Kind) returns (ok: bool)
      requires Valid()
      modifies this`i, this`errors
      ensures Valid() && ok == (old(i) < |toks|)
      ensures ok ==> i == Past(toks, old(i), kind) && errors == old(errors) + Miss(toks, old(i), kind)
      ensures !ok ==> i == old(i) && errors == old(errors)
    {
      ok := i < |toks|;
      if ok {
        if toks[i].kind == kind {
          PConsume();
        } else {
          errors := errors + 1;
        }
      }
    }

    /** Where the token is known to be there. */
    method ConsumeKind(kind: Tok.Kind) returns (ok: bool)
      requires Valid() && IsKind(kind)
      modifies this`i, this`errors
      ensures Valid() && ok && i == old(i) + 1 && errors == old(errors)
    {
      ok := ExpectAndConsume(kind);
    }

    // ----- expressions -----

    method ParseLeftF() returns (ok: bool, e: Expr, ghost t: Tree)
      requires Valid()
      modifies this`i, this`errors
      ensures Valid()
      ensures ParseLeft(Trident(), toks, old(i)) == if ok then Parsed(t, i) else Lost
      ensures ok ==> e == Abs(t) && errors == old(errors) + Missed(t)
      decreases |toks| - i, 0
    {
      hide ParseExpr, ParseArgs;
      ok, e, t := false, Atom(Tok.Unknown, "", 0), Leaf(Tok.Token(Tok.Unknown, "", 0));
      if i >= |toks| {
        return;
      }
      var token := toks[i];
      if token.kind.OPren? {
        PConsume();
        ghost var inner;
        ok, e, inner := ParseExprF(0);
        if ok {
          t := Paren(inner, IsKind(Tok.CPren));
          ok := ExpectAndConsume(Tok.CPren);
        }
        return;
      }
      if token.kind.Identifier? && i + 1 < |toks| && toks[i + 1].kind.OPren? {
        ghost var args;
        ok, e, args := ParseFunctionCallS();
        t := Call(token, args);
        return;
      }
      if UnaryOp(token.kind) {
        PConsume();
        ghost var operand;
        ok, e, operand := ParseLeftF();
        e := Unary(token.kind, e);
        t := Prefix(token, operand);
        return;
      }
      ok, e, t := ParseAtomF();
    }

    /** Any token can be an atom; an index may follow. */
    method ParseAtomF() returns (ok: bool, e: Expr, ghost t: Tree)
      requires Valid() && i < |toks| && !toks[i].kind.OPren? && !UnaryOp(toks[i].kind)
      requires !(toks[i].kind.Identifier? && i + 1 < |toks| && toks[i + 1].kind.OPren?)
      modifies this`i, this`errors
      ensures Valid()
      ensures ParseLeft(Trident(), toks, old(i)) == if ok then Parsed(t, i) else Lost
      ensures ok ==> e == Abs(t) && errors == old(errors) + Missed(t)
      decreases |toks| - i, 0, 0
    {
      hide ParseExpr, ParseArgs;
      var token := toks[i];
      PConsume();
      e, t := Atom(token.kind, token.lexeme, token.intLit), Leaf(token);
      ok := i < |toks|;
      if ok && toks[i].kind.OBracket? {
        PConsume();
        var index;
        ghost var inner;
        ok, index, inner := ParseExprF(0);
        if ok {
          t := Index(token, inner, IsKind(Tok.CBracket));
          ok := ExpectAndConsume(Tok.CBracket);
          var address := Unary(Tok.BitAnd, e);
          var offset := Binary(index, Tok.Mul, Eight());
          e := Unary(Tok.Mul, Binary(offset, Tok.Add, address));
        }
      }
    }

    /** The arguments are collected one after another. */
    method ParseFunctionCallS() returns (ok: bool, e: Expr, ghost args: Trees)
      requires Valid() && i + 1 < |toks| && toks[i].kind.Identifier? && toks[i + 1].kind.OPren?
      modifies this`i, this`errors
      ensures Valid()
      ensures !ok ==> ParseArgs(Trident(), toks, old(i) + 2) == LostAll
      ensures ok ==> i >= 1 && ParseArgs(Trident(), toks, old(i) + 2) == ParsedAll(args, i - 1)
      ensures ok ==> e == FunctionCall(toks[old(i)].lexeme, AbsAll(args)) && errors == old(errors) + MissedAll(args)
      decreases |toks| - i, 0, 0
    {
      hide ParseExpr, ParseArgs, ArgsSoFar;
      var name := toks[i].lexeme;
      PConsume();
      ok := ExpectAndConsume(Tok.OPren);
      var es: seq<Expr> := [];
      args := NoTrees;
      e := FunctionCall(name, NoExprs);
      ghost var start, ts: seq<Arg>, e0 := i, [], errors;
      ArgsStart(toks, start);
      while i < |toks| && !toks[i].kind.CPren?
        invariant Valid() && start <= i
        invariant ArgsSoFar(toks, start, ts, i)
        invariant es == AbsArgs(ts) && errors == e0 + MissedArgs(ts)
        decreases |toks| - i
      {
        ghost var before, t := i, NoTree();
        var expr;
        ok, expr, t := ParseExprF(0);
        ArgsStop(toks, start, ts, before);
        if !ok {
          return;
        }
        ghost var comma := IsKind(Tok.Comma);
        ArgsNext(toks, start, ts, before, t, i);
        es := es + [expr];
        ts := ts + [Arg(t, comma)];
        if IsKind(Tok.Comma) {
          PConsume();
        }
      }
      ArgsDone(toks, start, ts, i);
      ok := ExpectAndConsume(Tok.CPren);
      args := TreesOf(ts, NoTrees);
      e := FunctionCall(name, ExprsOf(es, NoExprs));
      ArgsMean(ts, NoTrees);
    }

    method ParseExprF(prec: int) returns (ok: bool, left: Expr, ghost t: Tree)
      requires Valid()
      modifies this`i, this`errors
      ensures Valid()
      ensures ParseExpr(Trident(), toks, old(i), prec) == if ok then Parsed(t, i) else Lost
      ensures ok ==> left == Abs(t) && errors == old(errors) + Missed(t)
      decreases |toks| - i, 1
    {
      hide ParseLeft;
      ok, left, t := ParseLeftF();
      if !ok {
        return;
      }
      ghost var start := old(i);
      while i < |toks|
        invariant Valid() && start < i && ok
        invariant ParseExpr(Trident(), toks, start, prec) == ParseRest(Trident(), toks, t, i, prec)
        invariant left == Abs(t) && errors == old(errors) + Missed(t)
        decreases |toks| - i
      {
        var op := toks[i];
        var level := Prec(op.kind);
        if level < 0 {
          ok := false;
          return;
        }
        if level == 0 || level < prec {
          return;
        }
        PConsume();
        var right;
        ghost var r;
        ok, right, r := ParseExprF(if level == 1 then level + 1 else level);
        if !ok {
          return;
        }
        left, t := Binary(left, op.kind, right), Infix(t, op, r);
      }
    }

    /** An expression, without the tree behind it. */
    method ParseWhole() returns (ok: bool, e: Expr)
      requires Valid()
      modifies this`i, this`errors
      ensures Valid() && (ok ==> errors >= old(errors))
      ensures ReadExpr(toks, old(i)) == if ok then ReadingExpr(e, i, errors - old(errors)) else GoneExpr
    {
      hide ParseExpr;
      ghost var t;
      ok, e, t := ParseExprF(0);
    }

    // ----- statements -----

    /** `auto` and its list of names: an entry and a declaration for each. */
    method ParseAutoS(ghost sc: nat, d: Draft) returns (ok: bool, out: Draft, ghost ss: Stmts)
      requires Valid() && IsKind(Tok.Auto)
      modifies this`i, this`errors
      ensures Valid() && (ok ==> errors >= old(errors))
      ensures ReadAutos(toks, old(i) + 1) == if ok then Reading(ss, i, errors - old(errors)) else Gone
      ensures ok ==> Built(ss, sc, With(d, old(scopes), old(lables)), With(out, scopes, lables))
    {
      hide *;
      out, ss := d, NoStmts;
      ghost var was := With(d, scopes, lables);
      ok := ConsumeKind(Tok.Auto);
      ghost var start, e0 := i, errors;
      LeadsStart(ReadAutos(toks, start));
      BuiltNone(sc, was);
      while true
        invariant Valid() && ok && errors >= e0
        invariant ReadingSoFar(ReadAutos(toks, start), ReadAutos(toks, i), ss, errors - e0)
        invariant Built(ss, sc, was, With(out, scopes, lables))
        decreases |toks| - i
      {
        AutosUnfold(toks, start, i, ss, errors - e0);
        ok := i < |toks|;
        if !ok {
          return;
        }
        ghost var now, s := With(out, scopes, lables), Stmt.Extrn("");
        ok, out, s := ParseAutoName(sc, out);
        if !ok {
          return;
        }
        BuiltMore(ss, Single(s), sc, was, now, With(out, scopes, lables));
        ss := Join(ss, Single(s));
        ghost var missed := errors;
        var last;
        ok, last := ParseSeparator();
        if last {
          if ok {
            LeadsEnd(ReadAutos(toks, start), i, errors - missed, ss, missed - e0);
          }
          return;
        }
      }
    }

    /** A comma, or the semicolon that ends the list. */
    method ParseSeparator() returns (ok: bool, last: bool)
      requires Valid()
      modifies this`i, this`errors
      ensures Valid() && last == !Is(toks, old(i), Tok.Comma) && ok == (old(i) < |toks|)
      ensures !last ==> i == old(i) + 1 && errors == old(errors)
      ensures last && ok ==>
                i == Past(toks, old(i), Tok.Semicolon) && errors == old(errors) + Miss(toks, old(i), Tok.Semicolon)
    {
      last := !IsKind(Tok.Comma);
      if last {
        ok := ExpectAndConsume(Tok.Semicolon);
      } else {
        ok := true;
        PConsume();
      }
    }

    /** One name of an `auto`, with its size: an entry in the table and a declaration. */
    method ParseAutoName(ghost sc: nat, d: Draft) returns (ok: bool, out: Draft, ghost s: Stmt)
      requires Valid() && i < |toks|
      modifies this`i, this`errors
      ensures Valid() && i >= old(i) && (ok ==> errors >= old(errors))
      ensures
        var size := ReadSize(toks, Past(toks, old(i), Tok.Identifier), true);
        if ok then
          && size.Sized? && s == Stmt.Auto(toks[old(i)].lexeme, size.size) && i == size.at
          && errors == old(errors) + Miss(toks, old(i), Tok.Identifier) + size.errors
        else size.NoSize?
      ensures ok ==> Built(Single(s), sc, With(d, old(scopes), old(lables)), With(out, scopes, lables))
    {
      hide ReadSize, Built;
      out := d;
      var name := toks[i].lexeme;
      s := Stmt.Auto(name, 0);
      ok := ExpectAndConsume(Tok.Identifier);
      var size;
      ok, size := ParseSize(true);
      if ok {
        AutoAdded(name, size, sc, With(d, scopes, lables));
        s := Stmt.Auto(name, size);
        var offset := d.offset + size;
        out := Draft(d.nodes + [PlainNode(Stmt.Auto(name, size))], d.symtab[name := VarInfo(AutoVar, offset, 0)],
                     offset);
      }
    }

    /** An optional `[n]`. */
    method ParseSize(strict: bool) returns (ok: bool, size: nat)
      requires Valid()
      modifies this`i, this`errors
      ensures Valid() && i >= old(i) && errors >= old(errors)
      ensures ReadSize(toks, old(i), strict) == if ok then Sized(size, i, errors - old(errors)) else NoSize
    {
      ok, size := true, 1;
      if IsKind(Tok.OBracket) {
        PConsume();
        ok := i < |toks|;
        if ok {
          size := toks[i].intLit;
          if strict {
            ok := ExpectAndConsume(Tok.IntLit);
          } else {
            PConsume();
          }
          ok := ExpectAndConsume(Tok.CBracket);
        }
      }
    }

    /** `extrn` and its list of names. */
    method ParseExtrnS(ghost sc: nat, d: Draft) returns (ok: bool, out: Draft, ghost ss: Stmts)
      requires Valid() && IsKind(Tok.Extrn)
      modifies this`i, this`errors
      ensures Valid() && (ok ==> errors == old(errors) && i > old(i))
      ensures ReadExtrns(toks, old(i) + 1) == if ok then Reading(ss, i, 0) else Gone
      ensures ok ==> Built(ss, sc, With(d, old(scopes), old(lables)), With(out, scopes, lables))
    {
      hide *;
      out, ss := d, NoStmts;
      ghost var was := With(d, scopes, lables);
      ok := ConsumeKind(Tok.Extrn);
      ghost var start := i;
      LeadsStart(ReadExtrns(toks, start));
      BuiltNone(sc, was);
      while true
        invariant Valid() && ok && errors == old(errors) && i >= start
        invariant ReadingSoFar(ReadExtrns(toks, start), ReadExtrns(toks, i), ss, 0)
        invariant Built(ss, sc, was, With(out, scopes, lables))
        decreases |toks| - i
      {
        ExtrnsUnfold(toks, start, i, ss);
        ok := i < |toks|;
        if !ok {
          return;
        }
        var name, last := ParseExtrnName();
        LeafBuilt(ss, Stmt.Extrn(name), sc, was, out, scopes, lables);
        out := out.(nodes := out.nodes + [PlainNode(Stmt.Extrn(name))]);
        ss := Join(ss, Single(Stmt.Extrn(name)));
        if last {
          ok := ConsumeKind(Tok.Semicolon);
          LeadsEnd(ReadExtrns(toks, start), i, 0, ss, 0);
          return;
        }
      }
    }

    /** One name of an `extrn`, with or without a comma behind it; `last` is whether the list ends. */
    method ParseExtrnName() returns (name: string, last: bool)
      requires Valid() && i < |toks|
      modifies this`i
      ensures Valid() && name == toks[old(i)].lexeme
      ensures last == IsKind(Tok.Semicolon) && last == Is(toks, i, Tok.Semicolon)
      ensures i == old(i) + 1 + One(Is(toks, old(i) + 1, Tok.Comma))
    {
      name := toks[i].lexeme;
      PConsume();
      if IsKind(Tok.Comma) {
        PConsume();
      }
      last := IsKind(Tok.Semicolon);
    }

    method ParseGotoS() returns (ok: bool, s: Stmt)
      requires Valid() && IsKind(Tok.Goto)
      modifies this`i, this`errors
      ensures Valid() && errors >= old(errors) && s.Goto?
      ensures Jump(toks, old(i)) == if ok then Reading(Single(s), i, errors - old(errors)) else Gone
    {
      s := Stmt.Goto("");
      ok := ExpectAndConsume(Tok.Goto);
      ok := i < |toks|;
      if ok {
        s := Stmt.Goto(toks[i].lexeme);
        PConsume();
        ok := ExpectAndConsume(Tok.Semicolon);
      }
    }

    /** An expression and a semicolon. */
    method ParseSemi() returns (ok: bool, e: Expr)
      requires Valid()
      modifies this`i, this`errors
      ensures Valid() && (ok ==> errors >= old(errors))
      ensures ReadSemi(toks, old(i)) == if ok then ReadingExpr(e, i, errors - old(errors)) else GoneExpr
    {
      hide ReadExpr;
      ok, e := ParseWhole();
      if ok {
        ok := ExpectAndConsume(Tok.Semicolon);
      }
    }

    /** `( condition )` behind a keyword. */
    method ParseCondition() returns (ok: bool, e: Expr)
      requires Valid()
      modifies this`i, this`errors
      ensures Valid() && (ok ==> errors >= old(errors))
      ensures ReadCondition(toks, old(i)) == if ok then ReadingExpr(e, i, errors - old(errors)) else GoneExpr
    {
      hide ReadExpr;
      e := Atom(Tok.Unknown, "", 0);
      ok := ExpectAndConsume(Tok.OPren);
      if ok {
        ok, e := ParseWhole();
        if ok {
          ok := ExpectAndConsume(Tok.CPren);
        }
      }
    }

    /** A compound statement in scope `parent`: a scope is opened, everything up to the closing brace
        is read into it, and then its table and its parent are written. */
    method ParseScopeF(parent: nat, offset: nat) returns (ok: bool, body: Body, ghost ss: Stmts)
      requires Valid()
      modifies this
      ensures Valid() && (ok ==> errors >= old(errors))
      ensures ReadScope(toks, old(i)) == if ok then Reading(ss, i, errors - old(errors)) else Gone
      ensures ok ==> body == DressBody(ss, |old(scopes)|) && FormedIn(ss)
      ensures ok ==> scopes == old(scopes) + RecordsBody(ss, parent, offset, |old(scopes)|)
      ensures ok ==> lables == Labelled(old(lables), LabelsIn(ss))
      decreases if i < |toks| then |toks| - Past(toks, i, Tok.OBrace) else 0, 3
    {
      hide ReadBody, ReadingSoFar, ReadStmt, Built;
      var id := |scopes|;
      scopes := scopes + [Nested(map[], parent)];
      ss, body := NoStmts, Body(id, NoNodes);
      ok := ExpectAndConsume(Tok.OBrace);
      if !ok {
        return;
      }
      ghost var start, e0 := i, errors;
      var d := Draft([], map[], offset);
      ghost var was := With(d, scopes, lables);
      LeadsStart(ReadBody(toks, start));
      BuiltNone(id, was);
      while i < |toks| && !toks[i].kind.CBrace?
        invariant Valid() && ok && start <= i && errors >= e0
        invariant ReadingSoFar(ReadBody(toks, start), ReadBody(toks, i), ss, errors - e0)
        invariant Built(ss, id, was, With(d, scopes, lables))
        decreases |toks| - i
      {
        BodyUnfold(toks, start, i, ss, errors - e0);
        ghost var more, now := NoStmts, With(d, scopes, lables);
        ok, d, more := ParseStatementsF(id, d);
        if !ok {
          return;
        }
        BuiltMore(ss, more, id, was, now, With(d, scopes, lables));
        ss := Join(ss, more);
      }
      BodyEnds(toks, start, i, ss, errors - e0);
      ok := ExpectAndConsume(Tok.CBrace);
      if ok {
        BodyBuilt(ss, parent, offset, was, With(d, scopes, lables), old(scopes), old(lables));
        scopes := scopes[id := Nested(d.symtab, parent)];
        body := Body(id, NodesOf(d.nodes));
      }
    }

    method ParseIfS(parent: nat, offset: nat) returns (ok: bool, links: Links, ghost c: Chain)
      requires Valid() && IsKind(Tok.If)
      modifies this
      ensures Valid() && (ok ==> errors >= old(errors))
      ensures ReadIf(toks, old(i)) == if ok then ReadingChain(c, i, errors - old(errors)) else GoneChain
      ensures ok ==> links == DressOf(c, |old(scopes)|) && c.Link? && FormedOf(c)
      ensures ok ==> scopes == old(scopes) + RecordsOf(c, parent, offset, |old(scopes)|)
      ensures ok ==> lables == Labelled(old(lables), LabelsOf(c))
      decreases |toks| - i, 0
    {
      hide ReadCondition, ReadScope, ReadElse, RecordsBody, DressBody, LabelsIn, Labelled, FormedIn;
      links, c := NoLinks, NoChain;
      ok := ExpectAndConsume(Tok.If);
      var cond;
      ok, cond := ParseCondition();
      if !ok {
        return;
      }
      var body, chain;
      ghost var ss, rest;
      ok, body, ss := ParseScopeF(parent, offset);
      if !ok {
        return;
      }
      ok, chain, rest := ParseElse(parent, offset);
      links, c := LinkNode(cond, body, chain), Link(cond, ss, rest);
      LabelledSum(old(lables), LabelsIn(ss), LabelsOf(rest));
    }

    method ParseElse(parent: nat, offset: nat) returns (ok: bool, links: Links, ghost c: Chain)
      requires Valid()
      modifies this
      ensures Valid() && (ok ==> errors >= old(errors))
      ensures ReadElse(toks, old(i)) == if ok then ReadingChain(c, i, errors - old(errors)) else GoneChain
      ensures ok ==> links == DressOf(c, |old(scopes)|) && FormedOf(c)
      ensures ok ==> scopes == old(scopes) + RecordsOf(c, parent, offset, |old(scopes)|)
      ensures ok ==> lables == Labelled(old(lables), LabelsOf(c))
      decreases |toks| - i, 2
    {
      hide ReadScope, ReadIf, RecordsBody, DressBody, LabelsIn, FormedIn;
      ok, links, c := true, NoLinks, NoChain;
      if IsKind(Tok.Else) {
        PConsume();
        if IsKind(Tok.If) {
          ok, links, c := ParseIfS(parent, offset);
        } else {
          var body;
          ghost var ss;
          ok, body, ss := ParseScopeF(parent, offset);
          links, c := ElseNode(body), Else(ss);
        }
      }
    }

    method ParseWhileS(parent: nat, offset: nat) returns (ok: bool, n: Node, ghost s: Stmt)
      requires Valid() && IsKind(Tok.While)
      modifies this
      ensures Valid() && (ok ==> errors >= old(errors))
      ensures ReadWhile(toks, old(i)) == if ok then Reading(Single(s), i, errors - old(errors)) else Gone
      ensures ok ==> n == Dress(s, |old(scopes)|) && Formed(s) && !s.Auto?
      ensures ok ==> scopes == old(scopes) + Records(s, parent, offset, |old(scopes)|)
      ensures ok ==> lables == Labelled(old(lables), Labels(s))
      decreases |toks| - i, 0
    {
      hide ReadCondition, ReadScope, RecordsBody, DressBody, LabelsIn, FormedIn, Labelled;
      n, s := PlainNode(Block(NoStmts)), Block(NoStmts);
      ok := ExpectAndConsume(Tok.While);
      var cond;
      ok, cond := ParseCondition();
      if ok {
        var body;
        ghost var ss;
        ok, body, ss := ParseScopeF(parent, offset);
        n, s := WhileNode(cond, body), Stmt.While(cond, ss);
      }
    }

    /** A label, a stray comma or an expression. */
    method ParsePlain(ghost sc: nat, d: Draft) returns (ok: bool, out: Draft, ghost ss: Stmts)
      requires Valid() && i < |toks|
      modifies this`i, this`errors, this`lables
      ensures Valid() && (ok ==> errors >= old(errors))
      ensures ReadPlain(toks, old(i)) == if ok then Reading(ss, i, errors - old(errors)) else Gone
      ensures ok ==> Built(ss, sc, With(d, old(scopes), old(lables)), With(out, scopes, lables))
    {
      hide ReadSemi, Built;
      ok, out, ss := true, d, NoStmts;
      BuiltNone(sc, With(d, scopes, lables));
      if toks[i].kind.Identifier? && i + 1 < |toks| && toks[i + 1].kind.Colon? {
        var name := toks[i].lexeme;
        LableBuilt(name, sc, With(d, scopes, lables));
        lables := lables[name := VarInfo(LableSym, 0, 0)];
        PConsume();
        PConsume();
        out := d.(nodes := d.nodes + [PlainNode(Stmt.Lable(name))]);
        ss := Single(Stmt.Lable(name));
      } else if toks[i].kind.Comma? {
        PConsume();
      } else {
        var e;
        ok, e := ParseSemi();
        LeafAdded(Simple(e), sc, With(d, scopes, lables));
        out := d.(nodes := d.nodes + [PlainNode(Simple(e))]);
        ss := Single(Simple(e));
      }
    }

    /** One call appends what it reads to the body. */
    method ParseStatementsF(sc: nat, d: Draft) returns (ok: bool, out: Draft, ghost ss: Stmts)
      requires Valid()
      modifies this
      ensures Valid() && (ok ==> errors >= old(errors))
      ensures ReadStmt(toks, old(i)) == if ok then Reading(ss, i, errors - old(errors)) else Gone
      ensures ok ==> Built(ss, sc, With(d, old(scopes), old(lables)), With(out, scopes, lables))
      decreases |toks| - i, 1
    {
      hide ReadAutos, ReadExtrns, Jump, ReadScope, ReadSemi, ReadIf, ReadWhile, ReadPlain, Built, RecordsBody,
        RecordsOf,
        DressBody, DressOf, LabelsIn, LabelsOf, Labelled, FormedIn, FormedOf;
      ok, out, ss := i < |toks|, d, NoStmts;
      if !ok {
        return;
      }
      ghost var was := With(d, scopes, lables);
      match toks[i].kind
      case Auto => ok, out, ss := ParseAutoS(sc, d);
      case Extrn => ok, out, ss := ParseExtrnS(sc, d);
      case Goto =>
        var s;
        ok, s := ParseGotoS();
        out, ss := d.(nodes := d.nodes + [PlainNode(s)]), Single(s);
        LeafAdded(s, sc, was);
      case OBrace =>
        var body;
        ghost var bs;
        ok, body, bs := ParseScopeF(sc, d.offset);
        out, ss := d.(nodes := d.nodes + [ScopeNode(body)]), Single(Block(bs));
        if ok {
          BuiltOne(Block(bs), sc, was);
        }
      case Return =>
        PConsume();
        var e;
        ok, e := ParseSemi();
        out, ss := d.(nodes := d.nodes + [PlainNode(Stmt.Return(e))]), Single(Stmt.Return(e));
        LeafAdded(Stmt.Return(e), sc, was);
      case If =>
        var links;
        ghost var c;
        ok, links, c := ParseIfS(sc, d.offset);
        out, ss := d.(nodes := d.nodes + [IfNode(links)]), Single(Stmt.If(c));
        if ok {
          BuiltOne(Stmt.If(c), sc, was);
        }
      case While =>
        var n;
        ghost var s;
        ok, n, s := ParseWhileS(sc, d.offset);
        out, ss := d.(nodes := d.nodes + [n]), Single(s);
        if ok {
          BuiltOne(s, sc, was);
        }
      case _ => ok, out, ss := ParsePlain(sc, d);
    }

    // ----- definitions -----

    /** The names of the parameters, each numbered in the table of scope `tab` as it is met. */
    method ParseParams(tab: nat) returns (params: nat, symtable: Table, ghost names: seq<string>)
      requires Valid() && tab < |scopes| && scopes[tab] == Nested(map[], 0)
      modifies this`i, this`scopes
      ensures Valid() && i >= old(i) && params == |names| && symtable == ParamTable(names)
      ensures ReadParams(toks, old(i)) == if i < |toks| then Params(names, i) else NoParams
      ensures i < |toks| ==> toks[i].kind.CPren?
      ensures scopes == old(scopes)[tab := Nested(symtable, 0)]
    {
      hide ReadParams, NamesLead;
      params, symtable, names := 0, map[], [];
      ghost var start := i;
      NamesStart(toks, start);
      while i < |toks| && !toks[i].kind.CPren?
        invariant Valid() && start <= i
        invariant NamesLead(toks, start, i, names)
        invariant params == |names| && symtable == ParamTable(names)
        invariant scopes == old(scopes)[tab := Nested(symtable, 0)]
        decreases |toks| - i
      {
        NamesNext(toks, start, i, names);
        var parmName := toks[i].lexeme;
        PConsume();
        params := params + 1;
        ParamMore(names, parmName);
        symtable := symtable[parmName := VarInfo(AutoVar, 0, params)];
        scopes := scopes[tab := Nested(symtable, 0)];
        names := names + [parmName];
        if IsKind(Tok.Comma) {
          PConsume();
        }
      }
      NamesEnd(toks, start, i, names);
    }

    /** A function, from its opening parenthesis on: a scope for its parameters, numbered from 1, and
        one statement. A list of names or a stray comma there has no list to be added to. */
    method ParseFunctionS(name: string) returns (ok: bool, node: ItemNode, ghost item: Item)
      requires Valid() && IsKind(Tok.OPren)
      modifies this
      ensures Valid() && (ok ==> errors >= old(errors))
      ensures ReadFunction(toks, name, old(i)) == if ok then ReadingItems([item], i, errors - old(errors))
        else GoneItems
      ensures ok ==> i > old(i)
      ensures ok ==> item.FunctionItem? && FormedItem(item) && node == DressItem(item, |old(scopes)|)
      ensures ok ==> scopes == old(scopes) + ItemRecords(item, |old(scopes)|)
    {
      hide ReadParams, ReadStmt, Built, ParamTable, Dress, Records, Labelled, Labels, Formed;
      item, node := FunctionItem(name, [], Block(NoStmts)), ExtrnNode(name);
      var tab := |scopes|;
      scopes := scopes + [Nested(map[], 0)];
      lables := map[];
      ok := ExpectAndConsume(Tok.OPren);
      var params, symtable;
      ghost var names;
      params, symtable, names := ParseParams(tab);
      ok := ExpectAndConsume(Tok.CPren);
      if ok {
        var body;
        ghost var s;
        ok, body, s := ParseFunctionBody(tab, symtable, 1 + params);
        item, node := FunctionItem(name, names, s), FunctionNode(name, params, tab, lables, body);
      }
    }

    /** The body of a function is one statement. */
    method ParseFunctionBody(tab: nat, symtable: Table, stackOffset: nat) returns (ok: bool, body: Node, ghost s: Stmt)
      requires Valid()
      modifies this
      ensures Valid() && (ok ==> errors >= old(errors))
      ensures
        var j, r := old(i), ReadStmt(toks, old(i));
        var list := j < |toks| && (toks[j].kind.Auto? || toks[j].kind.Extrn? || toks[j].kind.Comma?);
        if ok then !list && r == Reading(Single(s), i, errors - old(errors)) else list || j >= |toks| || r.Gone?
      ensures ok ==> body == Dress(s, |old(scopes)|) && Formed(s)
      ensures ok ==> scopes == old(scopes) + Records(s, tab, stackOffset, |old(scopes)|)
      ensures ok ==> lables == Labelled(old(lables), Labels(s))
    {
      hide ReadStmt, Built, Dress, Records, Labelled, Labels, Formed;
      s, body := Block(NoStmts), PlainNode(Block(NoStmts));
      ok := i < |toks| && !IsKind(Tok.Auto) && !IsKind(Tok.Extrn) && !IsKind(Tok.Comma);
      if ok {
        OneStmt(toks, i);
        var d := Draft([], symtable, stackOffset);
        ghost var was, ss := With(d, scopes, lables), NoStmts;
        ok, d, ss := ParseStatementsF(tab, d);
        if ok {
          OneBuilt(ss, tab, was, With(d, scopes, lables));
          body, s := d.nodes[0], ss.head;
        }
      }
    }

    /** Globals, from behind the first name on: an entry in the table of the globals for each. */
    method ParseGlobalS(first: string, nodes: seq<ItemNode>, ghost items: seq<Item>)
      returns (ok: bool, out: seq<ItemNode>, ghost done: seq<Item>)
      requires Valid() && Filed(items, nodes, scopes)
      modifies this`i, this`errors, this`scopes
      ensures Valid() && (ok ==> errors >= old(errors) && i >= old(i))
      ensures ItemsFinish(ReadGlobals(toks, first, old(i)), ok, items, done, i, errors - old(errors))
      ensures ok ==> Filed(done, out, scopes)
    {
      hide ReadGlobals, ReadSize, Filed;
      var name := first;
      ok, out, done := true, nodes, items;
      ghost var start, e0 := i, errors;
      ghost var all := ReadGlobals(toks, first, start);
      ghost var more: seq<Item> := [];
      ItemsStart(all);
      while true
        invariant Valid() && ok && errors >= e0 && i >= start
        invariant all == ReadGlobals(toks, first, start)
        invariant ItemsLead(all, ReadGlobals(toks, name, i), more, errors - e0)
        invariant done == items + more && Filed(done, out, scopes)
        decreases |toks| - i
      {
        GlobalsUnfold(toks, all, name, i, more, errors - e0);
        var size;
        ok, size := ParseSize(false);
        if !ok {
          return;
        }
        FiledGlobal(done, out, scopes, name, size);
        scopes := scopes[0 := Root(scopes[0].symtab[name := VarInfo(GlobalVar, size, 0)])];
        out := out + [GlobalNode(name, size)];
        more := more + [GlobalItem(name, size)];
        done := done + [GlobalItem(name, size)];
        if IsKind(Tok.Comma) {
          PConsume();
          ok := i < |toks|;
          if !ok {
            return;
          }
          name := toks[i].lexeme;
          PConsume();
        } else {
          ok := ExpectAndConsume(Tok.Semicolon);
          return;
        }
      }
    }

    /** One definition after another, to the end of the list. What comes out is the tree of the file
        and the list of its scopes. */
    method ParseFile() returns (ok: bool, nodes: seq<ItemNode>, ghost items: seq<Item>)
      requires Valid() && scopes == [Root(map[])]
      modifies this
      ensures Valid() && (ok ==> errors >= old(errors))
      ensures ReadFile(toks, old(i)) == if ok then ReadingItems(items, i, errors - old(errors)) else GoneItems
      ensures ok ==> i == |toks| && Filed(items, nodes, scopes)
    {
      hide ReadFile, ReadItem, Filed;
      ok, nodes, items := true, [], [];
      ghost var start, e0 := i, errors;
      ghost var all := ReadFile(toks, start);
      ItemsStart(all);
      FiledNone();
      while i < |toks|
        invariant Valid() && ok && errors >= e0
        invariant ItemsLead(all, ReadFile(toks, i), items, errors - e0)
        invariant Filed(items, nodes, scopes)
        decreases |toks| - i
      {
        FileUnfold(toks, all, i, items, errors - e0);
        ok, nodes, items := ParseItem(nodes, items);
        if !ok {
          return;
        }
      }
      FileEnds(toks, i);
    }

    method ParseItem(nodes: seq<ItemNode>, ghost items: seq<Item>)
      returns (ok: bool, out: seq<ItemNode>, ghost done: seq<Item>)
      requires Valid() && i < |toks| && Filed(items, nodes, scopes)
      modifies this
      ensures Valid() && (ok ==> errors >= old(errors) && i > old(i))
      ensures ItemsFinish(ReadItem(toks, old(i)), ok, items, done, i, errors - old(errors))
      ensures ok ==> Filed(done, out, scopes)
    {
      hide ReadFunction, ReadGlobals, ReadExtrns, Extrns, Filed, Built, DressItem, ItemRecords, FormedItem;
      ok, out, done := true, nodes, items;
      if toks[i].kind.Identifier? {
        var name := toks[i].lexeme;
        PConsume();
        ok := i < |toks|;
        if ok {
          if toks[i].kind.OPren? {
            var node;
            ghost var item;
            ok, node, item := ParseFunctionS(name);
            if ok {
              FiledFunction(items, nodes, old(scopes), item);
              out, done := out + [node], done + [item];
            }
          } else {
            ok, out, done := ParseGlobalS(name, nodes, items);
          }
        }
      } else if toks[i].kind.Extrn? {
        var d;
        ghost var ss;
        ok, d, ss := ParseExtrnS(0, Draft([], map[], 0));
        if ok {
          OnlyExtrns(toks, old(i) + 1);
          BuiltNodes(ss, 0, Progress([], map[], 0, scopes, lables), With(d, scopes, lables));
          ExtrnsFiled(items, nodes, scopes, ss, d.nodes);
          out, done := nodes + ExtrnNodes(d.nodes), items + Extrns(ss);
        }
      } else {
        errors := errors + 1;
        PConsume();
      }
    }
  }

  // ----- lists of definitions -----

  /** The nodes of an `extrn` that stands outside functions. */
  function ExtrnNodes(nodes: seq<Node>): seq<ItemNode> {
    if nodes == [] then []
    else (if nodes[0].PlainNode? && nodes[0].stmt.Extrn? then [ExtrnNode(nodes[0].stmt.name)] else [])
         + ExtrnNodes(nodes[1..])
  }

  predicate AllExtrns(ss: Stmts) {
    match ss
    case NoStmts => true
    case MoreStmts(s, next) => s.Extrn? && AllExtrns(next)
  }

  lemma {:induction false} OnlyExtrns(toks: seq<Tok.Token>, i: nat)
    ensures ReadExtrns(toks, i).Reading? ==> AllExtrns(ReadExtrns(toks, i).stmts)
    decreases |toks| - i
  {
    if i < |toks| {
      var j := i + 1 + One(Is(toks, i + 1, Tok.Comma));
      assert AllExtrns(NoStmts);
      if !Is(toks, j, Tok.Semicolon) {
        OnlyExtrns(toks, j);
      }
    }
  }

  lemma BuiltNodes(ss: Stmts, sc: nat, was: Progress, now: Progress)
    requires Built(ss, sc, was, now) && was.nodes == []
    ensures now.nodes == NodeSeq(ss, |was.scopes|)
  {
  }

  lemma {:induction false} ExtrnsFiled(items: seq<Item>, nodes: seq<ItemNode>, scopes: seq<Record>, ss: Stmts,
                                       ns: seq<Node>)
    requires Filed(items, nodes, scopes) && AllExtrns(ss) && ns == NodeSeq(ss, |scopes|)
    ensures Filed(items + Extrns(ss), nodes + ExtrnNodes(ns), scopes)
    decreases ss
  {
    hide Filed;
    match ss
    case NoStmts => assert items + [] == items && nodes + [] == nodes;
    case MoreStmts(s, next) =>
      FiledExtrn(items, nodes, scopes, s.name);
      assert ns[0] == PlainNode(s) && ns[1..] == NodeSeq(next, |scopes|);
      ExtrnsFiled(items + [ExtrnItem(s.name)], nodes + [ExtrnNode(s.name)], scopes, next, ns[1..]);
      assert items + ([ExtrnItem(s.name)] + Extrns(next)) == items + [ExtrnItem(s.name)] + Extrns(next);
      assert nodes + ([ExtrnNode(s.name)] + ExtrnNodes(ns[1..])) == nodes + [ExtrnNode(s.name)] + ExtrnNodes(ns[1..]);
  }

  lemma FiledExtrn(items: seq<Item>, nodes: seq<ItemNode>, scopes: seq<Record>, name: string)
    requires Filed(items, nodes, scopes)
    ensures Filed(items + [ExtrnItem(name)], nodes + [ExtrnNode(name)], scopes)
  {
    hide Filed;
    FiledMore(items, nodes, scopes, ExtrnItem(name));
    assert [Root(scopes[0].symtab)] + scopes[1..] + [] == scopes;
  }

  lemma FiledGlobal(items: seq<Item>, nodes: seq<ItemNode>, scopes: seq<Record>, name: string, size: nat)
    requires Filed(items, nodes, scopes)
    ensures scopes != [] && scopes[0].Root?
    ensures Filed(items + [GlobalItem(name, size)], nodes + [GlobalNode(name, size)],
                  scopes[0 := Root(scopes[0].symtab[name := VarInfo(GlobalVar, size, 0)])])
  {
    hide Filed;
    FiledMore(items, nodes, scopes, GlobalItem(name, size));
    var r := Root(scopes[0].symtab[name := VarInfo(GlobalVar, size, 0)]);
    assert [r] + scopes[1..] + [] == scopes[0 := r];
  }

  lemma FiledFunction(items: seq<Item>, nodes: seq<ItemNode>, scopes: seq<Record>, x: Item)
    requires Filed(items, nodes, scopes) && x.FunctionItem? && FormedItem(x)
    ensures Filed(items + [x], nodes + [DressItem(x, |scopes|)], scopes + ItemRecords(x, |scopes|))
  {
    hide Filed, DressItem, ItemRecords, FormedItem;
    FiledMore(items, nodes, scopes, x);
    assert [Root(scopes[0].symtab)] + scopes[1..] == scopes;
  }

  ghost predicate ItemsFinish(all: ReadingItems, ok: bool, items: seq<Item>, out: seq<Item>, at: nat, errors: int) {
    if ok then all.ReadingItems? && out == items + all.items && all.at == at && all.errors == errors
    else all.GoneItems?
  }

  ghost predicate ItemsLead(all: ReadingItems, rest: ReadingItems, done: seq<Item>, errors: int) {
    if rest.GoneItems? then all.GoneItems?
    else all.ReadingItems? && all.items == done + rest.items && all.at == rest.at && all.errors == errors + rest.errors
  }

  lemma ItemsStart(all: ReadingItems)
    ensures ItemsLead(all, all, [], 0)
  {
  }

  lemma {:induction false} FileUnfold(toks: seq<Tok.Token>, all: ReadingItems, i: nat, done: seq<Item>, errors: int)
    requires i < |toks| && ItemsLead(all, ReadFile(toks, i), done, errors)
    ensures
      var r := ReadItem(toks, i);
      if r.GoneItems? then all.GoneItems?
      else ItemsLead(all, ReadFile(toks, r.at), done + r.items, errors + r.errors)
  {
    hide ReadItem;
  }

  lemma {:induction false} FileEnds(toks: seq<Tok.Token>, i: nat)
    requires i == |toks|
    ensures ReadFile(toks, i) == ReadingItems([], i, 0)
  {
  }

  /** One global of a list. */
  lemma {:induction false} GlobalsUnfold(toks: seq<Tok.Token>, all: ReadingItems, name: string, i: nat, done: seq<Item>,
                                         errors: int)
    requires i <= |toks| && ItemsLead(all, ReadGlobals(toks, name, i), done, errors)
    ensures
      var size := ReadSize(toks, i, false);
      if size.NoSize? then all.GoneItems?
      else
        var more := done + [GlobalItem(name, size.size)];
        if Is(toks, size.at, Tok.Comma) then
          if size.at + 1 >= |toks| then all.GoneItems?
          else ItemsLead(all, ReadGlobals(toks, toks[size.at + 1].lexeme, size.at + 2), more, errors + size.errors)
        else if size.at >= |toks| then all.GoneItems?
        else ItemsFinish(all, true, [], more, Past(toks, size.at, Tok.Semicolon),
                         errors + size.errors + Miss(toks, size.at, Tok.Semicolon))
  {
    hide ReadSize;
  }

  // ----- parameters -----

  ghost predicate NamesLead(toks: seq<Tok.Token>, start: nat, i: nat, done: seq<string>) {
    var all, rest := ReadParams(toks, start), ReadParams(toks, i);
    if rest.NoParams? then all.NoParams? else all == Params(done + rest.names, rest.at)
  }

  lemma NamesStart(toks: seq<Tok.Token>, start: nat)
    ensures NamesLead(toks, start, start, [])
  {
    hide ReadParams;
    if ReadParams(toks, start).Params? {
      assert [] + ReadParams(toks, start).names == ReadParams(toks, start).names;
    }
  }

  lemma {:induction false} NamesNext(toks: seq<Tok.Token>, start: nat, i: nat, done: seq<string>)
    requires NamesLead(toks, start, i, done) && i < |toks| && !toks[i].kind.CPren?
    ensures NamesLead(toks, start, i + 1 + One(Is(toks, i + 1, Tok.Comma)), done + [toks[i].lexeme])
  {
    var rest := ReadParams(toks, i + 1 + One(Is(toks, i + 1, Tok.Comma)));
    if rest.Params? {
      assert done + ([toks[i].lexeme] + rest.names) == done + [toks[i].lexeme] + rest.names;
    }
  }

  lemma {:induction false} NamesEnd(toks: seq<Tok.Token>, start: nat, i: nat, done: seq<string>)
    requires NamesLead(toks, start, i, done) && i <= |toks| && (i < |toks| ==> toks[i].kind.CPren?)
    ensures ReadParams(toks, start) == if i < |toks| then Params(done, i) else NoParams
  {
    if i < |toks| {
      assert done + [] == done;
    }
  }

  lemma ParamMore(names: seq<string>, x: string)
    ensures ParamTable(names + [x]) == ParamTable(names)[x := VarInfo(AutoVar, 0, |names| + 1)]
  {
    assert (names + [x])[..|names|] == names;
  }

  /** Anything but a list of names or a stray comma is one statement. */
  lemma {:induction false} OneStmt(toks: seq<Tok.Token>, i: nat)
    requires i < |toks| && !toks[i].kind.Auto? && !toks[i].kind.Extrn? && !toks[i].kind.Comma?
    ensures
      var r := ReadStmt(toks, i);
      r.Reading? ==> r.stmts.MoreStmts? && r.stmts == Single(r.stmts.head) && !r.stmts.head.Auto?
  {
    hide ReadAutos, ReadExtrns, ReadScope, ReadSemi, ReadIf, ReadWhile;
    WhileOne(toks, i);
  }

  /** A function's body is the one statement that was added to nothing. */
  lemma OneBuilt(ss: Stmts, sc: nat, was: Progress, now: Progress)
    requires ss.MoreStmts? && ss == Single(ss.head) && Built(ss, sc, was, now) && was.nodes == []
    ensures now.nodes == [Dress(ss.head, |was.scopes|)] && Formed(ss.head)
    ensures now.scopes == was.scopes + Records(ss.head, sc, was.offset, |was.scopes|)
    ensures now.lables == Labelled(was.lables, Labels(ss.head))
  {
    hide Records, Dress, Labelled, Labels, Formed;
    var s, lo := ss.head, |was.scopes|;
    assert NodeSeq(NoStmts, lo + Width(s)) == [];
    assert RecordsIn(NoStmts, sc, OffsetAfter(s, was.offset), lo + Width(s)) == [];
    assert LabelsIn(ss) == Labels(s) + LabelsIn(NoStmts);
    assert Labels(s) + [] == Labels(s);
  }

  // ----- lists of statements -----

  /** `done` has been read; `rest` is to come. */
  ghost predicate ReadingSoFar(all: Reading, rest: Reading, done: Stmts, errors: int) {
    if rest.Gone? then all.Gone?
    else all.Reading? && all.stmts == Join(done, rest.stmts) && all.at == rest.at && all.errors == errors + rest.errors
  }

  lemma {:induction false} JoinNone(a: Stmts)
    ensures Join(a, NoStmts) == a
    decreases a
  {
    match a
    case NoStmts =>
    case MoreStmts(_, next) => JoinNone(next);
  }

  lemma {:induction false} JoinJoin(a: Stmts, b: Stmts, c: Stmts)
    ensures Join(Join(a, b), c) == Join(a, Join(b, c))
    decreases a
  {
    match a
    case NoStmts =>
    case MoreStmts(_, next) => JoinJoin(next, b, c);
  }

  lemma JoinSingle(a: Stmts, s: Stmt, c: Stmts)
    ensures Join(Join(a, Single(s)), c) == Join(a, MoreStmts(s, c))
  {
    JoinJoin(a, Single(s), c);
    assert Join(NoStmts, c) == c;
  }

  lemma LeadsEnd(all: Reading, at: nat, last: nat, done: Stmts, errors: int)
    requires ReadingSoFar(all, Reading(NoStmts, at, last), done, errors)
    ensures all.Reading? && all.stmts == done && all.at == at && all.errors == errors + last
  {
    JoinNone(done);
  }

  lemma LeadsStart(all: Reading)
    ensures ReadingSoFar(all, all, NoStmts, 0)
  {
  }

  // ----- what statements add -----

  /** A statement without scopes, labels and declarations adds itself. */
  lemma LeafAdded(s: Stmt, sc: nat, was: Progress)
    requires s.Return? || s.Simple? || s.Goto? || s.Extrn?
    ensures Built(Single(s), sc, was, was.(nodes := was.nodes + [PlainNode(s)]))
  {
    hide Built;
    BuiltOne(s, sc, was);
    assert was.scopes + [] == was.scopes;
    assert Labelled(was.lables, []) == was.lables;
  }

  lemma LeafBuilt(ss: Stmts, s: Stmt, sc: nat, was: Progress, d: Draft, scopes: seq<Record>, lables: Table)
    requires Built(ss, sc, was, With(d, scopes, lables)) && (s.Return? || s.Simple? || s.Goto? || s.Extrn?)
    ensures Built(Join(ss, Single(s)), sc, was, With(d.(nodes := d.nodes + [PlainNode(s)]), scopes, lables))
  {
    hide Built;
    var now := With(d, scopes, lables);
    LeafAdded(s, sc, now);
    BuiltMore(ss, Single(s), sc, was, now, now.(nodes := now.nodes + [PlainNode(s)]));
  }

  lemma AutoAdded(name: string, size: nat, sc: nat, was: Progress)
    ensures
      var offset := was.offset + size;
      Built(Single(Stmt.Auto(name, size)), sc, was,
            Progress(was.nodes + [PlainNode(Stmt.Auto(name, size))], was.symtab[name := VarInfo(AutoVar, offset, 0)],
                     offset,
                     was.scopes, was.lables))
  {
    hide Built;
    BuiltOne(Stmt.Auto(name, size), sc, was);
    assert was.scopes + [] == was.scopes;
    assert Labelled(was.lables, []) == was.lables;
  }

  lemma LableBuilt(name: string, sc: nat, was: Progress)
    ensures Built(Single(Stmt.Lable(name)), sc, was,
                  was.(nodes := was.nodes + [PlainNode(Stmt.Lable(name))],
                       lables := was.lables[name := VarInfo(LableSym, 0, 0)]))
  {
    hide Built;
    BuiltOne(Stmt.Lable(name), sc, was);
    assert was.scopes + [] == was.scopes;
    assert [name][..0] == [];
    assert Labelled(was.lables, [name]) == was.lables[name := VarInfo(LableSym, 0, 0)];
  }

  /** The scope of a body is complete when its table is written. */
  lemma BodyBuilt(ss: Stmts, parent: nat, offset: nat, was: Progress, now: Progress, scopes: seq<Record>, lables: Table)
    requires Built(ss, |scopes|, was, now)
    requires was == Progress([], map[], offset, scopes + [Nested(map[], parent)], lables)
    ensures |now.scopes| > |scopes| && Body(|scopes|, NodesOf(now.nodes)) == DressBody(ss, |scopes|) && FormedIn(ss)
    ensures now.scopes[|scopes| := Nested(now.symtab, parent)] == scopes + RecordsBody(ss, parent, offset, |scopes|)
    ensures now.lables == Labelled(lables, LabelsIn(ss))
  {
    hide RecordsIn, TableAfter, NodeSeq, Labelled, LabelsIn, FormedIn, OffsetIn;
    var id := |scopes|;
    assert [] + NodeSeq(ss, id + 1) == NodeSeq(ss, id + 1);
    NodesOfSeq(ss, id + 1);
    assert now.scopes == scopes + [Nested(map[], parent)] + RecordsIn(ss, id, offset, id + 1);
  }

  function NoTree(): Tree {
    Leaf(Tok.Token(Tok.Unknown, "", 0))
  }

  // ----- the argument loop -----

  datatype Arg = Arg(tree: Tree, comma: bool)

  function TreesOf(ts: seq<Arg>, tail: Trees): Trees {
    if ts == [] then tail else TreesOf(ts[..|ts| - 1], MoreTrees(ts[|ts| - 1].tree, ts[|ts| - 1].comma, tail))
  }

  function ExprsOf(es: seq<Expr>, tail: Exprs): Exprs {
    if es == [] then tail else ExprsOf(es[..|es| - 1], MoreExprs(es[|es| - 1], tail))
  }

  function AbsArgs(ts: seq<Arg>): (es: seq<Expr>)
    ensures |es| == |ts|
  {
    if ts == [] then [] else AbsArgs(ts[..|ts| - 1]) + [Abs(ts[|ts| - 1].tree)]
  }

  function MissedArgs(ts: seq<Arg>): nat {
    if ts == [] then 0 else MissedArgs(ts[..|ts| - 1]) + Missed(ts[|ts| - 1].tree)
  }

  /** The arguments `ts` have been read from `start` up to i; the rest decides the answer. */
  ghost predicate ArgsSoFar(toks: seq<Tok.Token>, start: nat, ts: seq<Arg>, i: nat) {
    var all, rest := ParseArgs(Trident(), toks, start), ParseArgs(Trident(), toks, i);
    if rest.LostAll? then all.LostAll? else all == ParsedAll(TreesOf(ts, rest.trees), rest.at)
  }

  lemma ArgsStart(toks: seq<Tok.Token>, start: nat)
    ensures ArgsSoFar(toks, start, [], start)
  {
    hide ParseArgs;
  }

  /** An argument that cannot be read ends the call. */
  lemma ArgsStop(toks: seq<Tok.Token>, start: nat, ts: seq<Arg>, i: nat)
    requires ArgsSoFar(toks, start, ts, i) && i < |toks| && !toks[i].kind.CPren?
    ensures ParseExpr(Trident(), toks, i, 0).Lost? ==> ParseArgs(Trident(), toks, start).LostAll?
  {
    hide ParseExpr;
  }

  lemma {:induction false} ArgsNext(toks: seq<Tok.Token>, start: nat, ts: seq<Arg>, i: nat, t: Tree, j: nat)
    requires ArgsSoFar(toks, start, ts, i) && i < |toks| && !toks[i].kind.CPren?
    requires i < j <= |toks| && ParseExpr(Trident(), toks, i, 0) == Parsed(t, j)
    ensures ArgsSoFar(toks, start, ts + [Arg(t, Is(toks, j, Tok.Comma))], j + One(Is(toks, j, Tok.Comma)))
  {
    hide ParseExpr;
    var more := ts + [Arg(t, Is(toks, j, Tok.Comma))];
    assert more[..|more| - 1] == ts;
  }

  lemma ArgsDone(toks: seq<Tok.Token>, start: nat, ts: seq<Arg>, i: nat)
    requires ArgsSoFar(toks, start, ts, i) && i <= |toks| && (i < |toks| ==> toks[i].kind.CPren?)
    ensures ParseArgs(Trident(), toks, start) == if i < |toks| then ParsedAll(TreesOf(ts, NoTrees), i) else LostAll
  {
  }

  lemma {:induction false} ArgsMean(ts: seq<Arg>, tail: Trees)
    ensures AbsAll(TreesOf(ts, tail)) == ExprsOf(AbsArgs(ts), AbsAll(tail))
    ensures MissedAll(TreesOf(ts, tail)) == MissedArgs(ts) + MissedAll(tail)
    decreases |ts|
  {
    if ts != [] {
      var k := |ts| - 1;
      ArgsMean(ts[..k], MoreTrees(ts[k].tree, ts[k].comma, tail));
      assert AbsArgs(ts)[..k] == AbsArgs(ts[..k]);
    }
  }

  /** One name of an `auto`. */
  lemma {:induction false} AutosUnfold(toks: seq<Tok.Token>, start: nat, i: nat, done: Stmts, errors: int)
    requires ReadingSoFar(ReadAutos(toks, start), ReadAutos(toks, i), done, errors)
    ensures i >= |toks| ==> ReadAutos(toks, start).Gone?
    ensures i < |toks| ==>
      var j := Past(toks, i, Tok.Identifier);
      var size := ReadSize(toks, j, true);
      if size.NoSize? then ReadAutos(toks, start).Gone?
      else
        var more := Join(done, Single(Stmt.Auto(toks[i].lexeme, size.size)));
        var errs := errors + Miss(toks, i, Tok.Identifier) + size.errors;
        if Is(toks, size.at, Tok.Comma)
          then ReadingSoFar(ReadAutos(toks, start), ReadAutos(toks, size.at + 1), more, errs)
        else if size.at >= |toks| then ReadAutos(toks, start).Gone?
        else ReadingSoFar(ReadAutos(toks, start),
                   Reading(NoStmts, Past(toks, size.at, Tok.Semicolon), Miss(toks, size.at, Tok.Semicolon)), more, errs)
  {
    hide ReadSize, Join, ReadAutos, Past, Miss;
    AutosDef(toks, i);
    if i < |toks| {
      var size := ReadSize(toks, Past(toks, i, Tok.Identifier), true);
      if size.Sized? {
        var s := Stmt.Auto(toks[i].lexeme, size.size);
        JoinSingle(done, s, NoStmts);
        if Is(toks, size.at, Tok.Comma) && ReadAutos(toks, size.at + 1).Reading? {
          JoinSingle(done, s, ReadAutos(toks, size.at + 1).stmts);
        }
      }
    }
  }

  lemma AutosDef(toks: seq<Tok.Token>, i: nat)
    ensures i >= |toks| ==> ReadAutos(toks, i).Gone?
    ensures i < |toks| ==>
      var size := ReadSize(toks, Past(toks, i, Tok.Identifier), true);
      if size.NoSize? then ReadAutos(toks, i).Gone?
      else
        var s := Stmt.Auto(toks[i].lexeme, size.size);
        var here := Miss(toks, i, Tok.Identifier) + size.errors;
        if Is(toks, size.at, Tok.Comma) then
          match ReadAutos(toks, size.at + 1)
          case Gone => ReadAutos(toks, i).Gone?
          case Reading(next, end, more) => ReadAutos(toks, i) == Reading(MoreStmts(s, next), end, here + more)
        else if size.at >= |toks| then ReadAutos(toks, i).Gone?
        else ReadAutos(toks, i) == Reading(Single(s), Past(toks, size.at, Tok.Semicolon),
                                           here + Miss(toks, size.at, Tok.Semicolon))
  {
    hide ReadSize;
  }

  /** One name of an `extrn`. */
  lemma {:induction false} ExtrnsUnfold(toks: seq<Tok.Token>, start: nat, i: nat, done: Stmts)
    requires ReadingSoFar(ReadExtrns(toks, start), ReadExtrns(toks, i), done, 0)
    ensures i >= |toks| ==> ReadExtrns(toks, start).Gone?
    ensures i < |toks| ==>
      var j := i + 1 + One(Is(toks, i + 1, Tok.Comma));
      var more := Join(done, Single(Stmt.Extrn(toks[i].lexeme)));
      if Is(toks, j, Tok.Semicolon) then ReadingSoFar(ReadExtrns(toks, start), Reading(NoStmts, j + 1, 0), more, 0)
      else ReadingSoFar(ReadExtrns(toks, start), ReadExtrns(toks, j), more, 0)
  {
    hide Join;
    if i < |toks| {
      var j := i + 1 + One(Is(toks, i + 1, Tok.Comma));
      var x := Stmt.Extrn(toks[i].lexeme);
      JoinSingle(done, x, NoStmts);
      if !Is(toks, j, Tok.Semicolon) && ReadExtrns(toks, j).Reading? {
        JoinSingle(done, x, ReadExtrns(toks, j).stmts);
      }
    }
  }

  /** One call of `parse_statements_f` in a body. */
  lemma {:induction false} BodyUnfold(toks: seq<Tok.Token>, start: nat, i: nat, done: Stmts, errors: int)
    requires ReadingSoFar(ReadBody(toks, start), ReadBody(toks, i), done, errors)
    requires i < |toks| && !toks[i].kind.CBrace?
    ensures
      var r := ReadStmt(toks, i);
      if r.Gone? then ReadBody(toks, start).Gone?
      else ReadingSoFar(ReadBody(toks, start), ReadBody(toks, r.at), Join(done, r.stmts), errors + r.errors)
  {
    hide ReadStmt, Join;
    var r := ReadStmt(toks, i);
    if r.Reading? {
      var rest := ReadBody(toks, r.at);
      if rest.Reading? {
        JoinJoin(done, r.stmts, rest.stmts);
      }
    }
  }

  lemma {:induction false} BodyEnds(toks: seq<Tok.Token>, start: nat, i: nat, done: Stmts, errors: int)
    requires ReadingSoFar(ReadBody(toks, start), ReadBody(toks, i), done, errors)
    requires i < |toks| ==> toks[i].kind.CBrace?
    ensures i >= |toks| ==> ReadBody(toks, start).Gone?
    ensures i < |toks| ==> errors >= 0 && ReadBody(toks, start) == Reading(done, i, errors)
  {
    if i < |toks| {
      assert ReadBody(toks, i) == Reading(NoStmts, i, 0);
      LeadsEnd(ReadBody(toks, start), i, 0, done, errors);
    }
  }

  lemma {:induction false} WhileOne(toks: seq<Tok.Token>, i: nat)
    ensures ReadWhile(toks, i).Reading? ==>
              var ss := ReadWhile(toks, i).stmts;
              ss.MoreStmts? && ss == Single(ss.head) && ss.head.While?
  {
    hide ReadCondition, ReadScope;
  }
}
