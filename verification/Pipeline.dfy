/** From the text of a file to the listing: the four passes one after another. */
module Pipeline {
  import opened Words
  import opened Ast
  import Lx = Lexing
  import R = Statements
  import P = RoundTrip
  import L = Lowering
  import X = X86
  import C = Codegen
  import S = Source
  import I = Ir
  import Frames
  import BackEnd
  import Compiler
  import Ns = Nodes
  import SC = ScopeChains
  import Lexers
  import Parsers
  import IrGenerator
  import AsmWriter
  import Sp = Spacing
  import Ps = Programs

  function ProgramText(text: string): Option<Program> {
    match Lx.LexFrom(text, 0, 0)
    case Died => None
    case Lexed(toks) =>
      match R.ReadFile(toks, 0)
      case GoneItems => None
      case ReadingItems(items, _, _) => R.ProgramOf(items)
  }

  function CompileText(text: string): Option<seq<X.Item>> {
    match ProgramText(text)
    case None => None
    case Some(p) =>
      match L.LowerProgram(p)
      case None => None
      case Some(fns) => Some(C.Text(fns))
  }

  lemma {:induction false} WrittenIsProgram(items: seq<R.Item>)
    requires forall x :: x in items ==> P.WrittenItem(x)
    ensures R.ProgramOf(items).Some?
    decreases |items|
  {
    if items != [] {
      WrittenIsProgram(items[..|items| - 1]);
      assert items[|items| - 1] in items;
    }
  }

  /** A printed program is the program that is compiled. */
  lemma PrintedIsCompiled(items: seq<R.Item>)
    requires forall x :: x in items ==> P.WrittenItem(x)
    requires Lx.CanonicalAll(P.PrintFile(items), 0)
    ensures R.ProgramOf(items).Some?
    ensures ProgramText(Lx.FileOf(P.PrintFile(items))) == R.ProgramOf(items)
  {
    hide P.PrintFile, P.WrittenItem, Lx.FileOf, Lx.LexFrom, R.ReadFile, R.ProgramOf, Lx.CanonicalAll;
    P.TextThenFile(items);
    WrittenIsProgram(items);
  }

  /** However a printed file is laid out, with blanks, line ends and comments between its tokens, or
      nothing where no token runs on into the next, it is compiled as the program of its definitions: its
      functions in order with their names, parameters and bodies, and its globals, each with the size in
      its last definition. */
  lemma LaidOutProgram(items: seq<R.Item>, gaps: seq<seq<Sp.Gap>>, g: string, size: nat) returns (p: Program)
    requires (forall x :: x in items ==> P.WrittenItem(x)) && Lx.CanonicalAll(P.PrintFile(items), 0)
    requires |gaps| == |P.PrintFile(items)| + 1 && Sp.GoodGaps(gaps)
    requires Sp.KeptApart(Lx.PiecesOf(P.PrintFile(items)), gaps)
    ensures ProgramText(Sp.TextOf(Lx.PiecesOf(P.PrintFile(items)), gaps)) == Some(p)
    ensures |p.fns| == Ps.Functions(items)
    ensures forall i :: 0 <= i < |items| && items[i].FunctionItem? ==>
              && items[i].body.Block? && Ps.Functions(items[..i]) < |p.fns|
              && p.fns[Ps.Functions(items[..i])] == Function(items[i].name, items[i].params, items[i].body.body)
    ensures (exists i :: 0 <= i < |items| && items[i].GlobalItem? && items[i].name == g) <==> g in p.globals
    ensures (exists i :: Ps.LastDefines(items, i, g, size)) <==> g in p.globals && p.globals[g] == size
  {
    hide P.PrintFile, P.WrittenItem, Lx.LexFrom, R.ReadFile, R.ProgramOf, Lx.CanonicalAll, Lx.PiecesOf, Lx.MeantAll,
      Sp.TextOf, Sp.KeptApart, Sp.GoodGaps, Lx.Proper, Ps.Functions, Ps.LastDefines;
    var toks := P.PrintFile(items);
    Lx.PiecesMean(toks, 0);
    Sp.LayoutLexes(Sp.TextOf(Lx.PiecesOf(toks), gaps), 0, Lx.PiecesOf(toks), gaps, 0);
    P.PrintThenRead(items);
    WrittenIsProgram(items);
    p := R.ProgramOf(items).value;
    Ps.FunctionsInOrder(items, p);
    Ps.GlobalsWithSizes(items, p, g, size);
  }

  /** The statement round trip with its scopes. Whatever tree and scopes the parser makes of a printed
      file, they hold that file, every parameter has its number, and the parent of every body's scope
      is the scope that the body stands in. */
  lemma {:induction false} PrintedTree(items: seq<R.Item>, read: seq<R.Item>, at: nat, errors: nat,
                                       nodes: seq<Ns.ItemNode>, scopes: seq<Ns.Record>, i: nat)
    requires forall x :: x in items ==> P.WrittenItem(x)
    requires R.ReadFile(P.PrintFile(items), 0) == R.ReadingItems(read, at, errors) && Ns.Filed(read, nodes, scopes)
    requires i < |items| && items[i].FunctionItem?
    ensures read == items && errors == 0 && |nodes| == |items| && nodes[i].FunctionNode?
    ensures Ns.Undress(nodes[i].body) == items[i].body && nodes[i].params == |items[i].params|
    ensures
      var tab := nodes[i].paramsTab;
      && 0 < tab < |scopes| && scopes[tab] == Ns.Nested(Ns.ParamTable(items[i].params), 0)
      && SC.Encloses(scopes, nodes[i].body, tab)
  {
    hide P.PrintFile, P.WrittenItem, R.ReadFile, Ns.Filed, SC.Encloses, Ns.Undress, Ns.Dress, Ns.Labelled,
      Ns.ParamTable;
    P.PrintThenRead(items);
    SC.ParentsEnclose(items, nodes, scopes, i);
    SC.ItemLaid(items, nodes, scopes, i);
    Ns.UndressDress(items[i].body, 2 + Ns.ItemsWidth(items[..i]));
  }

  /** The whole compiler. If a text compiles to the listing on the board, the program it spells
      lowers, and the processor does what the meaning of that program says. */
  lemma TextToProcessor(text: string, b: X.Board, c: X.Cpu, entry: nat, base: Word, args: seq<Word>, fuel: nat)
      returns (p: Program, fns: seq<I.Fn>)
    requires CompileText(text) == Some(b.text) && |b.text| < TWO64
    requires ProgramText(text).Some? && Compiler.Named(ProgramText(text).value)
    ensures ProgramText(text) == Some(p) && L.LowerProgram(p) == Some(fns) && b.text == C.Text(fns)
    ensures
      entry < |p.fns| && BackEnd.Booted(fns, b, c, entry, base, args, S.GlobalMemory(p, Frames.WorldOf(fns, b))) ==>
        Compiler.Behaves(b, c, S.RunProgram(p, Frames.WorldOf(fns, b), entry, base, args, fuel), fuel)
  {
    hide ProgramText, L.LowerProgram, C.Text, Compiler.Named, BackEnd.Booted, S.GlobalMemory, S.RunProgram,
      Compiler.Behaves;
    p := ProgramText(text).value;
    fns := L.LowerProgram(p).value;
    if entry < |p.fns| && BackEnd.Booted(fns, b, c, entry, base, args, S.GlobalMemory(p, Frames.WorldOf(fns, b))) {
      Compiler.CompilerCorrect(p, fns, b, c, entry, base, args, fuel);
    }
  }

  // ----- the passes in their own form -----

  /** Every function body is a compound statement. */
  predicate Compound(nodes: seq<Ns.ItemNode>) {
    forall i :: 0 <= i < |nodes| && nodes[i].FunctionNode? ==> nodes[i].body.ScopeNode?
  }

  lemma {:induction false} CompoundProgram(items: seq<R.Item>)
    ensures Compound(Ns.DressItems(items)) <==> R.ProgramOf(items).Some?
    decreases |items|
  {
    if items != [] {
      var n := |items| - 1;
      var before, last := Ns.DressItems(items[..n]), Ns.DressItem(items[n], 1 + Ns.ItemsWidth(items[..n]));
      CompoundProgram(items[..n]);
      CompoundMore(before, last);
      assert last.FunctionNode? ==> (last.body.ScopeNode? <==> items[n].body.Block?);
    }
  }

  lemma CompoundMore(nodes: seq<Ns.ItemNode>, last: Ns.ItemNode)
    ensures Compound(nodes + [last]) <==> Compound(nodes) && (last.FunctionNode? ==> last.body.ScopeNode?)
  {
    var all := nodes + [last];
    assert forall i :: 0 <= i < |nodes| ==> all[i] == nodes[i];
    assert all[|nodes|] == last;
  }

  /** The four passes one after another: lexer, parser, lowering and code generator compute exactly
      the listing that the theorems are about, or there is none. */
  method Compile(text: string) returns (ok: bool, listing: seq<X.Item>)
    ensures CompileText(text) == if ok then Some(listing) else None
  {
    hide R.ReadFile, Lx.LexFrom, L.LowerProgram, C.Text, R.ProgramOf, Ns.Filed;
    listing := [];
    var l := new Lexers.Lexer(text);
    ok := l.Lex();
    if !ok {
      return;
    }
    var p := new Parsers.Parser(l.toks);
    var nodes;
    ghost var items;
    ok, nodes, items := p.ParseFile();
    if !ok {
      return;
    }
    FiledCompound(items, nodes, p.scopes);
    ok := Compound(nodes);
    if !ok {
      return;
    }
    var fns;
    ok, fns := IrGenerator.GenIr(nodes, p.scopes, items, R.ProgramOf(items).value);
    if !ok {
      return;
    }
    var w := new AsmWriter.Writer();
    w.Dump(fns);
    listing := w.out;
    assert [] + C.Text(fns) == C.Text(fns);
  }

  lemma FiledCompound(items: seq<R.Item>, nodes: seq<Ns.ItemNode>, scopes: seq<Ns.Record>)
    requires Ns.Filed(items, nodes, scopes)
    ensures Compound(nodes) <==> R.ProgramOf(items).Some?
  {
    CompoundProgram(items);
  }
}
