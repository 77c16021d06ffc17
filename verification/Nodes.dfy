/** The tree and the scopes that the parser builds and the lowering walks: the `AstNode`s and
    `AstScope`s of src/ast.h. Scopes are objects there, and tables are changed in place; here a scope
    is a number, given in the order in which scopes are opened, and the scopes themselves are a list
    of records. Number 0 is the scope of the globals. */
module Nodes {
  import opened Ast
  import R = Statements

  datatype VarKind = AutoVar | GlobalVar | ParamVar | LableSym

  datatype VarInfo = VarInfo(kind: VarKind, offset: nat, tempDest: nat)

  type Table = map<string, VarInfo>

  /** A scope without its body: its table, and its parent unless it is the scope of the globals. */
  datatype Record = Root(symtab: Table) | Nested(symtab: Table, parent: nat)

  /** Statements; those that contain no others are as in `Ast`. */
  datatype Node =
    | PlainNode(stmt: Stmt)
    | ScopeNode(scope: Body)
    | IfNode(links: Links)
    | WhileNode(cond: Expr, body: Body)

  datatype Body = Body(id: nat, nodes: NodeList)

  datatype NodeList = NoNodes | MoreNodes(head: Node, next: NodeList)

  datatype Links = NoLinks | LinkNode(cond: Expr, body: Body, chain: Links) | ElseNode(body: Body)

  // ----- a statement and its scopes -----

  /** The number of scopes inside a statement. */
  function Width(s: Stmt): nat {
    match s
    case Block(body) => 1 + WidthIn(body)
    case If(links) => WidthOf(links)
    case While(_, body) => 1 + WidthIn(body)
    case _ => 0
  }

  function WidthIn(ss: Stmts): nat {
    match ss
    case NoStmts => 0
    case MoreStmts(s, next) => Width(s) + WidthIn(next)
  }

  function WidthOf(c: Chain): nat {
    match c
    case NoChain => 0
    case Link(_, body, chain) => 1 + WidthIn(body) + WidthOf(chain)
    case Else(body) => 1 + WidthIn(body)
  }

  /** The tree of a statement whose scopes have the numbers from `lo` on. */
  function Dress(s: Stmt, lo: nat): Node
    decreases s, 0
  {
    match s
    case Block(body) => ScopeNode(DressBody(body, lo))
    case If(links) => IfNode(DressOf(links, lo))
    case While(cond, body) => WhileNode(cond, DressBody(body, lo))
    case _ => PlainNode(s)
  }

  function DressBody(body: Stmts, lo: nat): Body
    decreases body, 1
  {
    Body(lo, DressIn(body, lo + 1))
  }

  function DressIn(ss: Stmts, lo: nat): NodeList
    decreases ss, 0
  {
    match ss
    case NoStmts => NoNodes
    case MoreStmts(s, next) => MoreNodes(Dress(s, lo), DressIn(next, lo + Width(s)))
  }

  function DressOf(c: Chain, lo: nat): Links
    decreases c, 0
  {
    match c
    case NoChain => NoLinks
    case Link(cond, body, chain) =>
      LinkNode(cond, DressBody(body, lo), DressOf(chain, lo + 1 + WidthIn(body)))
    case Else(body) => ElseNode(DressBody(body, lo))
  }

  /** The statement without its scopes. */
  function Undress(n: Node): Stmt
    decreases n, 0
  {
    match n
    case PlainNode(s) => s
    case ScopeNode(body) => Block(UndressIn(body.nodes))
    case IfNode(links) => If(UndressOf(links))
    case WhileNode(cond, body) => While(cond, UndressIn(body.nodes))
  }

  function UndressIn(ns: NodeList): Stmts
    decreases ns, 0
  {
    match ns
    case NoNodes => NoStmts
    case MoreNodes(n, next) => MoreStmts(Undress(n), UndressIn(next))
  }

  function UndressOf(links: Links): Chain
    decreases links, 0
  {
    match links
    case NoLinks => NoChain
    case LinkNode(cond, body, chain) => Link(cond, UndressIn(body.nodes), UndressOf(chain))
    case ElseNode(body) => Else(UndressIn(body.nodes))
  }

  /** The tree holds the statement: only the numbers of the scopes are added. */
  lemma {:induction false} UndressDress(s: Stmt, lo: nat)
    ensures Undress(Dress(s, lo)) == s
    decreases s, 0
  {
    match s
    case Block(body) => UndressBody(body, lo + 1);
    case If(links) => UndressChain(links, lo);
    case While(_, body) => UndressBody(body, lo + 1);
    case _ =>
  }

  lemma {:induction false} UndressBody(ss: Stmts, lo: nat)
    ensures UndressIn(DressIn(ss, lo)) == ss
    decreases ss, 0
  {
    match ss
    case NoStmts =>
    case MoreStmts(s, next) =>
      UndressDress(s, lo);
      UndressBody(next, lo + Width(s));
  }

  lemma {:induction false} UndressChain(c: Chain, lo: nat)
    ensures UndressOf(DressOf(c, lo)) == c
    decreases c, 0
  {
    match c
    case NoChain =>
    case Else(body) => UndressBody(body, lo + 1);
    case Link(_, body, chain) =>
      UndressBody(body, lo + 1);
      UndressChain(chain, lo + 1 + WidthIn(body));
  }

  /** An `if` begins with an `if`. */
  predicate Formed(s: Stmt) {
    match s
    case Block(body) => FormedIn(body)
    case If(links) => links.Link? && FormedOf(links)
    case While(_, body) => FormedIn(body)
    case _ => true
  }

  predicate FormedIn(ss: Stmts) {
    match ss
    case NoStmts => true
    case MoreStmts(s, next) => Formed(s) && FormedIn(next)
  }

  predicate FormedOf(c: Chain) {
    match c
    case NoChain => true
    case Link(_, body, chain) => FormedIn(body) && FormedOf(chain)
    case Else(body) => FormedIn(body)
  }

  // ----- tables -----

  /** A table after the declarations that stand directly in `ss`; offsets count words. */
  function TableAfter(tab: Table, ss: Stmts, offset: nat): Table
    decreases ss
  {
    match ss
    case NoStmts => tab
    case MoreStmts(s, next) =>
      TableAfter(if s.Auto? then tab[s.name := VarInfo(AutoVar, offset + s.size, 0)] else tab, next,
                 OffsetAfter(s, offset))
  }

  function OffsetAfter(s: Stmt, offset: nat): nat {
    if s.Auto? then offset + s.size else offset
  }

  function OffsetIn(ss: Stmts, offset: nat): nat {
    match ss
    case NoStmts => offset
    case MoreStmts(s, next) => OffsetIn(next, OffsetAfter(s, offset))
  }

  /** The records of the scopes in a statement that stands in scope `sc`. */
  function Records(s: Stmt, sc: nat, offset: nat, lo: nat): (r: seq<Record>)
    ensures |r| == Width(s)
    decreases s, 0
  {
    match s
    case Block(body) => RecordsBody(body, sc, offset, lo)
    case If(links) => RecordsOf(links, sc, offset, lo)
    case While(_, body) => RecordsBody(body, sc, offset, lo)
    case _ => []
  }

  /** A body's own record comes before those of the bodies in it. */
  function RecordsBody(body: Stmts, sc: nat, offset: nat, lo: nat): (r: seq<Record>)
    ensures |r| == 1 + WidthIn(body)
    decreases body, 1
  {
    [Nested(TableAfter(map[], body, offset), sc)] + RecordsIn(body, lo, offset, lo + 1)
  }

  function RecordsIn(ss: Stmts, sc: nat, offset: nat, lo: nat): (r: seq<Record>)
    ensures |r| == WidthIn(ss)
    decreases ss, 0
  {
    match ss
    case NoStmts => []
    case MoreStmts(s, next) => Records(s, sc, offset, lo) + RecordsIn(next, sc, OffsetAfter(s, offset), lo + Width(s))
  }

  function RecordsOf(c: Chain, sc: nat, offset: nat, lo: nat): (r: seq<Record>)
    ensures |r| == WidthOf(c)
    decreases c, 0
  {
    match c
    case NoChain => []
    case Link(_, body, chain) =>
      RecordsBody(body, sc, offset, lo) + RecordsOf(chain, sc, offset, lo + 1 + WidthIn(body))
    case Else(body) => RecordsBody(body, sc, offset, lo)
  }

  /** The label table after the labels `names`. */
  function Labelled(tab: Table, names: seq<string>): Table {
    if names == [] then tab
    else Labelled(tab, names[..|names| - 1])[names[|names| - 1] := VarInfo(LableSym, 0, 0)]
  }

  /** A parameter's number is its temp. The entry that `var_info` made is replaced by one with
      nothing else in it. */
  function ParamTable(params: seq<string>): Table {
    if params == [] then map[]
    else ParamTable(params[..|params| - 1])[params[|params| - 1] := VarInfo(AutoVar, 0, |params|)]
  }

  // ----- joining statements -----

  /** A body in the making: its last nodes, its table and the stack offset. */
  datatype Draft = Draft(nodes: seq<Node>, symtab: Table, offset: nat)

  /** The same, with the scopes and the labels that the parser has met. */
  datatype Progress =
    Progress(nodes: seq<Node>, symtab: Table, offset: nat, scopes: seq<Record>, lables: Table)

  function With(d: Draft, scopes: seq<Record>, lables: Table): Progress {
    Progress(d.nodes, d.symtab, d.offset, scopes, lables)
  }

  /** What the parser has added when it has read the statements `ss`, standing in scope `sc`. */
  ghost predicate Built(ss: Stmts, sc: nat, was: Progress, now: Progress) {
    && now.nodes == was.nodes + NodeSeq(ss, |was.scopes|)
    && now.scopes == was.scopes + RecordsIn(ss, sc, was.offset, |was.scopes|)
    && now.symtab == TableAfter(was.symtab, ss, was.offset) && now.offset == OffsetIn(ss, was.offset)
    && now.lables == Labelled(was.lables, LabelsIn(ss))
    && FormedIn(ss)
  }

  function NodeSeq(ss: Stmts, lo: nat): seq<Node> {
    match ss
    case NoStmts => []
    case MoreStmts(s, next) => [Dress(s, lo)] + NodeSeq(next, lo + Width(s))
  }

  function NodesOf(ns: seq<Node>): NodeList {
    if ns == [] then NoNodes else MoreNodes(ns[0], NodesOf(ns[1..]))
  }

  lemma {:induction false} NodesOfSeq(ss: Stmts, lo: nat)
    ensures NodesOf(NodeSeq(ss, lo)) == DressIn(ss, lo)
    decreases ss
  {
    match ss
    case NoStmts =>
    case MoreStmts(s, next) =>
      NodesOfSeq(next, lo + Width(s));
      assert NodeSeq(ss, lo)[1..] == NodeSeq(next, lo + Width(s));
  }

  lemma TreeCons(s: Stmt, next: Stmts, lo: nat)
    ensures WidthIn(MoreStmts(s, next)) == Width(s) + WidthIn(next)
    ensures NodeSeq(MoreStmts(s, next), lo) == [Dress(s, lo)] + NodeSeq(next, lo + Width(s))
  {
    hide Dress, Width;
  }

  lemma JoinCons(s: Stmt, next: Stmts, b: Stmts)
    ensures Join(MoreStmts(s, next), b) == MoreStmts(s, Join(next, b))
  {
  }

  lemma TreeNone(b: Stmts, sc: nat, offset: nat, lo: nat)
    ensures Join(NoStmts, b) == b && WidthIn(NoStmts) == 0 && OffsetIn(NoStmts, offset) == offset
    ensures NodeSeq(NoStmts, lo) == [] && RecordsIn(NoStmts, sc, offset, lo) == []
  {
    hide Records;
  }

  lemma {:induction false} JoinTree(a: Stmts, b: Stmts, lo: nat)
    ensures WidthIn(Join(a, b)) == WidthIn(a) + WidthIn(b)
    ensures NodeSeq(Join(a, b), lo) == NodeSeq(a, lo) + NodeSeq(b, lo + WidthIn(a))
    decreases a
  {
    hide *;
    match a
    case NoStmts => TreeNone(b, 0, 0, lo);
    case MoreStmts(s, next) =>
      var hi := lo + Width(s);
      JoinTree(next, b, hi);
      JoinCons(s, next, b);
      TreeCons(s, next, lo);
      TreeCons(s, Join(next, b), lo);
      SumNodes([Dress(s, lo)], NodeSeq(next, hi), NodeSeq(b, hi + WidthIn(next)));
  }

  lemma SumNodes(a: seq<Node>, b: seq<Node>, c: seq<Node>)
    ensures a + (b + c) == a + b + c
  {
  }

  lemma {:induction false} JoinOffsets(a: Stmts, b: Stmts, offset: nat)
    ensures OffsetIn(Join(a, b), offset) == OffsetIn(b, OffsetIn(a, offset))
    decreases a
  {
    match a
    case NoStmts =>
    case MoreStmts(s, next) => JoinOffsets(next, b, OffsetAfter(s, offset));
  }

  lemma RecordsCons(s: Stmt, next: Stmts, sc: nat, offset: nat, lo: nat)
    ensures RecordsIn(MoreStmts(s, next), sc, offset, lo)
            == Records(s, sc, offset, lo) + RecordsIn(next, sc, OffsetAfter(s, offset), lo + Width(s))
    ensures WidthIn(MoreStmts(s, next)) == Width(s) + WidthIn(next)
    ensures OffsetIn(MoreStmts(s, next), offset) == OffsetIn(next, OffsetAfter(s, offset))
  {
    hide Records, Width, OffsetAfter;
  }

  lemma {:induction false} JoinScopes(a: Stmts, b: Stmts, sc: nat, offset: nat, lo: nat)
    ensures RecordsIn(Join(a, b), sc, offset, lo)
            == RecordsIn(a, sc, offset, lo) + RecordsIn(b, sc, OffsetIn(a, offset), lo + WidthIn(a))
    decreases a
  {
    hide *;
    match a
    case NoStmts => TreeNone(b, sc, offset, lo);
    case MoreStmts(s, next) =>
      var hi, more := lo + Width(s), OffsetAfter(s, offset);
      JoinScopes(next, b, sc, more, hi);
      JoinCons(s, next, b);
      RecordsCons(s, next, sc, offset, lo);
      RecordsCons(s, Join(next, b), sc, offset, lo);
      SumRecords(Records(s, sc, offset, lo), RecordsIn(next, sc, more, hi),
                 RecordsIn(b, sc, OffsetIn(next, more), hi + WidthIn(next)));
  }

  lemma SumRecords(a: seq<Record>, b: seq<Record>, c: seq<Record>)
    ensures a + (b + c) == a + b + c
  {
  }

  lemma {:induction false} JoinTables(tab: Table, a: Stmts, b: Stmts, offset: nat)
    ensures TableAfter(tab, Join(a, b), offset) == TableAfter(TableAfter(tab, a, offset), b, OffsetIn(a, offset))
    ensures FormedIn(Join(a, b)) == (FormedIn(a) && FormedIn(b))
    decreases a
  {
    match a
    case NoStmts =>
    case MoreStmts(s, next) =>
      JoinTables(if s.Auto? then tab[s.name := VarInfo(AutoVar, offset + s.size, 0)] else tab, next, b,
                 OffsetAfter(s, offset));
  }

  lemma {:induction false} JoinLabels(a: Stmts, b: Stmts)
    ensures LabelsIn(Join(a, b)) == LabelsIn(a) + LabelsIn(b)
    decreases a
  {
    match a
    case NoStmts =>
    case MoreStmts(s, next) => JoinLabels(next, b);
  }

  lemma {:induction false} LabelledSum(tab: Table, a: seq<string>, b: seq<string>)
    ensures Labelled(tab, a + b) == Labelled(Labelled(tab, a), b)
    decreases |b|
  {
    if b == [] {
      assert a + b == a;
    } else {
      assert (a + b)[..|a + b| - 1] == a + b[..|b| - 1];
      LabelledSum(tab, a, b[..|b| - 1]);
    }
  }

  lemma BuiltNone(sc: nat, was: Progress)
    ensures Built(NoStmts, sc, was, was)
  {
  }

  /** Statements read one after another. */
  lemma BuiltMore(a: Stmts, b: Stmts, sc: nat, was: Progress, now: Progress, end: Progress)
    requires Built(a, sc, was, now) && Built(b, sc, now, end)
    ensures Built(Join(a, b), sc, was, end)
  {
    hide RecordsIn, NodeSeq, TableAfter, OffsetIn, Labelled, LabelsIn, FormedIn, WidthIn, Join;
    var lo := |was.scopes|;
    JoinTree(a, b, lo);
    JoinOffsets(a, b, was.offset);
    JoinScopes(a, b, sc, was.offset, lo);
    JoinTables(was.symtab, a, b, was.offset);
    JoinLabels(a, b);
    LabelledSum(was.lables, LabelsIn(a), LabelsIn(b));
  }

  /** One statement that is no list of declarations. */
  lemma BuiltOne(s: Stmt, sc: nat, was: Progress)
    requires Formed(s)
    ensures Built(Single(s), sc, was, Added(s, sc, was))
  {
    hide Records, Dress, Labelled, Labels, Formed;
    var lo := |was.scopes|;
    assert NodeSeq(NoStmts, lo + Width(s)) == [];
    assert RecordsIn(NoStmts, sc, OffsetAfter(s, was.offset), lo + Width(s)) == [];
    assert LabelsIn(NoStmts) == [];
    assert LabelsIn(Single(s)) == Labels(s) + LabelsIn(NoStmts);
    assert Labels(s) + [] == Labels(s);
    assert FormedIn(NoStmts);
    var tab := Added(s, sc, was).symtab;
    assert TableAfter(tab, NoStmts, OffsetAfter(s, was.offset)) == tab;
    assert OffsetIn(NoStmts, OffsetAfter(s, was.offset)) == OffsetAfter(s, was.offset);
  }

  /** What one more statement adds. */
  function Added(s: Stmt, sc: nat, was: Progress): Progress {
    Progress(was.nodes + [Dress(s, |was.scopes|)],
             if s.Auto? then was.symtab[s.name := VarInfo(AutoVar, was.offset + s.size, 0)] else was.symtab,
             OffsetAfter(s, was.offset), was.scopes + Records(s, sc, was.offset, |was.scopes|),
             Labelled(was.lables, Labels(s)))
  }

  // ----- files -----

  /** The definitions of a file. `paramsTab` is the number of the scope with the parameters. */
  datatype ItemNode =
    | FunctionNode(name: string, params: nat, paramsTab: nat, lableTab: Table, body: Node)
    | GlobalNode(name: string, size: nat)
    | ExtrnNode(name: string)

  function ItemWidth(x: R.Item): nat {
    if x.FunctionItem? then 1 + Width(x.body) else 0
  }

  function ItemsWidth(items: seq<R.Item>): nat {
    if items == [] then 0 else ItemsWidth(items[..|items| - 1]) + ItemWidth(items[|items| - 1])
  }

  function DressItem(x: R.Item, lo: nat): ItemNode {
    match x
    case FunctionItem(name, params, body) =>
      FunctionNode(name, |params|, lo, Labelled(map[], Labels(body)), Dress(body, lo + 1))
    case GlobalItem(name, size) => GlobalNode(name, size)
    case ExtrnItem(name) => ExtrnNode(name)
  }

  function DressItems(items: seq<R.Item>): (r: seq<ItemNode>)
    ensures |r| == |items|
  {
    if items == [] then []
    else
      var n := |items| - 1;
      DressItems(items[..n]) + [DressItem(items[n], 1 + ItemsWidth(items[..n]))]
  }

  function ItemRecords(x: R.Item, lo: nat): (r: seq<Record>)
    ensures |r| == ItemWidth(x)
  {
    match x
    case FunctionItem(_, params, body) =>
      [Nested(ParamTable(params), 0)] + Records(body, lo, 1 + |params|, lo + 1)
    case _ => []
  }

  function ItemsRecords(items: seq<R.Item>): (r: seq<Record>)
    ensures |r| == ItemsWidth(items)
  {
    if items == [] then []
    else
      var n := |items| - 1;
      ItemsRecords(items[..n]) + ItemRecords(items[n], 1 + ItemsWidth(items[..n]))
  }

  /** The entry of a global holds its size. */
  function GlobalTable(items: seq<R.Item>): Table {
    if items == [] then map[]
    else
      var x := items[|items| - 1];
      var tab := GlobalTable(items[..|items| - 1]);
      if x.GlobalItem? then tab[x.name := VarInfo(GlobalVar, x.size, 0)] else tab
  }

  predicate FormedItem(x: R.Item) {
    x.FunctionItem? ==> Formed(x.body)
  }

  /** The tree and the scopes of a file. */
  ghost predicate Filed(items: seq<R.Item>, nodes: seq<ItemNode>, scopes: seq<Record>) {
    && nodes == DressItems(items) && scopes == [Root(GlobalTable(items))] + ItemsRecords(items)
    && forall x :: x in items ==> FormedItem(x)
  }

  lemma FiledNone()
    ensures Filed([], [], [Root(map[])])
  {
  }

  lemma DressLast(items: seq<R.Item>)
    requires items != []
    ensures
      var n := |items| - 1;
      DressItems(items) == DressItems(items[..n]) + [DressItem(items[n], 1 + ItemsWidth(items[..n]))]
  {
    hide DressItem, ItemsWidth;
  }

  lemma RecordsLast(items: seq<R.Item>)
    requires items != []
    ensures
      var n := |items| - 1;
      ItemsRecords(items) == ItemsRecords(items[..n]) + ItemRecords(items[n], 1 + ItemsWidth(items[..n]))
  {
    hide ItemRecords, ItemsWidth;
  }

  lemma DressMore(items: seq<R.Item>, x: R.Item)
    ensures DressItems(items + [x]) == DressItems(items) + [DressItem(x, 1 + ItemsWidth(items))]
  {
    hide *;
    var more := items + [x];
    var n := |more| - 1;
    assert more[..n] == items && more[n] == x;
    DressLast(more);
  }

  lemma RecordsMore(items: seq<R.Item>, x: R.Item)
    ensures ItemsRecords(items + [x]) == ItemsRecords(items) + ItemRecords(x, 1 + ItemsWidth(items))
  {
    hide *;
    var more := items + [x];
    var n := |more| - 1;
    assert more[..n] == items && more[n] == x;
    RecordsLast(more);
  }

  lemma GlobalsMore(items: seq<R.Item>, x: R.Item)
    ensures
      GlobalTable(items + [x])
      == if x.GlobalItem? then GlobalTable(items)[x.name := VarInfo(GlobalVar, x.size, 0)] else GlobalTable(items)
  {
    assert (items + [x])[..|items|] == items;
  }

  lemma FiledMore(items: seq<R.Item>, nodes: seq<ItemNode>, scopes: seq<Record>, x: R.Item)
    requires Filed(items, nodes, scopes) && FormedItem(x)
    ensures scopes != [] && scopes[0].Root? && |scopes| == 1 + ItemsWidth(items)
    ensures
      var tab := scopes[0].symtab;
      var tab1 := if x.GlobalItem? then tab[x.name := VarInfo(GlobalVar, x.size, 0)] else tab;
      Filed(items + [x], nodes + [DressItem(x, |scopes|)], [Root(tab1)] + scopes[1..] + ItemRecords(x, |scopes|))
  {
    hide DressItem, ItemRecords, FormedItem, ItemWidth, DressItems, ItemsRecords, GlobalTable, ItemsWidth;
    DressMore(items, x);
    RecordsMore(items, x);
    GlobalsMore(items, x);
    var tab1 := GlobalTable(items + [x]);
    assert scopes[1..] == ItemsRecords(items);
    assert [Root(tab1)] + ItemsRecords(items) + ItemRecords(x, |scopes|)
        == [Root(tab1)] + (ItemsRecords(items) + ItemRecords(x, |scopes|));
  }
}

/** The tables of the parser are those with which the lowering opens its blocks. */
module SymbolTables {
  import opened Ast
  import opened Nodes
  import L = Lowering

  /** The storage numbers of a table. */
  function TempsOf(tab: Table): map<string, nat> {
    map x | x in tab :: tab[x].tempDest
  }

  lemma {:induction false} BlockTemps(tab: Table, ss: Stmts, offset: nat)
    ensures TempsOf(TableAfter(tab, ss, offset)) == TempsOf(tab) + L.BlockTable(ss)
    decreases ss
  {
    match ss
    case NoStmts =>
    case MoreStmts(s, next) =>
      if s.Auto? {
        var info := VarInfo(AutoVar, offset + s.size, 0);
        BlockTemps(tab[s.name := info], next, offset + s.size);
        ZeroTable(next);
        assert TempsOf(tab[s.name := info]) == TempsOf(tab)[s.name := 0];
        assert TempsOf(tab)[s.name := 0] + L.BlockTable(next) == TempsOf(tab) + L.BlockTable(next)[s.name := 0];
      } else {
        BlockTemps(tab, next, offset);
      }
  }

  lemma {:induction false} ZeroTable(ss: Stmts)
    ensures forall x :: x in L.BlockTable(ss) ==> L.BlockTable(ss)[x] == 0
    decreases ss
  {
    match ss
    case NoStmts =>
    case MoreStmts(_, next) => ZeroTable(next);
  }

  /** A body's table is the table with which the lowering opens the block. */
  lemma BodyTemps(body: Stmts, offset: nat)
    ensures TempsOf(TableAfter(map[], body, offset)) == L.BlockTable(body)
  {
    BlockTemps(map[], body, offset);
    assert TempsOf(map[]) + L.BlockTable(body) == L.BlockTable(body);
  }

  lemma {:induction false} ParamTempsAre(params: seq<string>)
    ensures TempsOf(ParamTable(params)) == L.ParamTemps(params)
    decreases |params|
  {
    if params != [] {
      ParamTempsAre(params[..|params| - 1]);
    }
  }

  lemma {:induction false} LabelTempsAre(names: seq<string>)
    ensures TempsOf(Labelled(map[], names)) == L.LabelTable(names)
    decreases |names|
  {
    if names != [] {
      var n := |names| - 1;
      LabelTempsAre(names[..n]);
      assert names == names[..n] + [names[n]];
      assert TempsOf(Labelled(map[], names)) == TempsOf(Labelled(map[], names[..n]))[names[n] := 0];
      assert L.LabelTable(names) == L.LabelTable(names[..n])[names[n] := 0];
    }
  }

  /** Every name that is declared directly in a block is in its table. */
  predicate Declares(tab: Table, ss: Stmts) {
    match ss
    case NoStmts => true
    case MoreStmts(s, next) => (s.Auto? ==> s.name in tab) && Declares(tab, next)
  }

  lemma {:induction false} TableKeeps(tab: Table, ss: Stmts, offset: nat)
    ensures tab.Keys <= TableAfter(tab, ss, offset).Keys
    decreases ss
  {
    match ss
    case NoStmts =>
    case MoreStmts(s, next) =>
      TableKeeps(if s.Auto? then tab[s.name := VarInfo(AutoVar, offset + s.size, 0)] else tab, next,
                 OffsetAfter(s, offset));
  }

  lemma {:induction false} TableDeclares(tab: Table, ss: Stmts, offset: nat)
    ensures Declares(TableAfter(tab, ss, offset), ss)
    decreases ss
  {
    match ss
    case NoStmts =>
    case MoreStmts(s, next) =>
      var tab1 := if s.Auto? then tab[s.name := VarInfo(AutoVar, offset + s.size, 0)] else tab;
      TableKeeps(tab1, next, OffsetAfter(s, offset));
      TableDeclares(tab1, next, OffsetAfter(s, offset));
  }

  lemma {:induction false} DeclaresMore(tab: Table, tab1: Table, ss: Stmts)
    requires Declares(tab, ss) && tab.Keys <= tab1.Keys
    ensures Declares(tab1, ss)
    decreases ss
  {
    match ss
    case NoStmts =>
    case MoreStmts(_, next) => DeclaresMore(tab, tab1, next);
  }

  /** Every parameter's storage number is its place in the list: parameter k arrives in temp k. */
  lemma {:induction false} ParamsNumbered(params: seq<string>, k: nat)
    requires Distinct(params) && k < |params|
    ensures params[k] in ParamTable(params) && ParamTable(params)[params[k]].tempDest == k + 1
    ensures params[k] in L.ParamTemps(params) && L.ParamTemps(params)[params[k]] == k + 1
    decreases |params|
  {
    var n := |params| - 1;
    if k < n {
      ParamsNumbered(params[..n], k);
    }
  }

  // ----- the globals of a file -----

  lemma {:induction false} GlobalKeys(items: seq<R.Item>)
    requires R.ProgramOf(items).Some?
    ensures GlobalTable(items).Keys == R.ProgramOf(items).value.globals.Keys
    decreases |items|
  {
    if items != [] {
      GlobalKeys(items[..|items| - 1]);
    }
  }

  /** The program of the first k definitions. */
  lemma {:induction false} PrefixProgram(items: seq<R.Item>, k: nat)
    requires k <= |items| && R.ProgramOf(items).Some?
    ensures R.ProgramOf(items[..k]).Some? && R.ProgramOf(items[..k]).value.fns <= R.ProgramOf(items).value.fns
    decreases |items|
  {
    var n := |items| - 1;
    if k <= n {
      PrefixProgram(items[..n], k);
      assert items[..n][..k] == items[..k];
    } else {
      assert items[..k] == items;
    }
  }

  lemma {:induction false} GlobalKinds(items: seq<R.Item>)
    ensures forall x :: x in GlobalTable(items) ==> GlobalTable(items)[x].kind.GlobalVar?
    decreases |items|
  {
    if items != [] {
      GlobalKinds(items[..|items| - 1]);
    }
  }
}

/** Scopes as the lowering walks them: from record to record along the parents. */
module ScopeChains {
  import opened Ast
  import opened Scopes
  import opened Nodes
  import opened SymbolTables
  import L = Lowering
  import R = Statements

  /** Parents come before their children, and everything hangs below the globals. */
  ghost predicate Rooted(scopes: seq<Record>) {
    && scopes != [] && scopes[0].Root?
    && (forall x :: x in scopes[0].symtab ==> scopes[0].symtab[x].kind.GlobalVar?)
    && forall i :: 0 < i < |scopes| ==> Hangs(scopes[i], i)
  }

  ghost predicate Hangs(r: Record, i: nat) {
    r.Nested? && r.parent < i && forall x :: x in r.symtab ==> r.symtab[x].kind.AutoVar?
  }

  /** The chain of tables that begins at scope `sc`. */
  ghost function ChainOf(scopes: seq<Record>, sc: nat): Scope
    requires Rooted(scopes) && sc < |scopes|
    decreases sc
  {
    if sc == 0 then Globals(scopes[0].symtab.Keys)
    else
      assert Hangs(scopes[sc], sc);
      Inner(TempsOf(scopes[sc].symtab), ChainOf(scopes, scopes[sc].parent))
  }

  lemma {:induction false} ChainSame(a: seq<Record>, b: seq<Record>, sc: nat)
    requires Rooted(a) && Rooted(b) && sc < |a| && sc < |b| && forall j :: 0 <= j <= sc ==> a[j] == b[j]
    ensures ChainOf(a, sc) == ChainOf(b, sc)
    decreases sc
  {
    if sc != 0 {
      assert Hangs(a[sc], sc);
      ChainSame(a, b, a[sc].parent);
    }
  }

  // ----- records in their places -----

  ghost predicate Laid(scopes: seq<Record>, lo: nat, rs: seq<Record>) {
    lo + |rs| <= |scopes| && scopes[lo..lo + |rs|] == rs
  }

  lemma LaidSplit(scopes: seq<Record>, lo: nat, a: seq<Record>, b: seq<Record>)
    requires Laid(scopes, lo, a + b)
    ensures Laid(scopes, lo, a) && Laid(scopes, lo + |a|, b)
  {
    assert scopes[lo..lo + |a|] == (a + b)[..|a|];
    assert scopes[lo + |a|..lo + |a| + |b|] == (a + b)[|a|..];
  }

  lemma LaidAt(scopes: seq<Record>, lo: nat, rs: seq<Record>, i: nat)
    requires Laid(scopes, lo, rs) && i < |rs|
    ensures lo + i < |scopes| && scopes[lo + i] == rs[i]
  {
    assert scopes[lo..lo + |rs|][i] == rs[i];
  }

  /** Nothing has changed but scopes lo to hi. */
  ghost predicate KeptBut(a: seq<Record>, b: seq<Record>, lo: nat, hi: nat) {
    |a| == |b| && Rooted(b) && forall j :: 0 <= j < |a| && !(lo <= j < hi) ==> a[j] == b[j]
  }

  /** Nor, in scope `sc`, the names and the parent. */
  ghost predicate KeptIn(a: seq<Record>, b: seq<Record>, sc: nat, lo: nat, hi: nat) {
    && |a| == |b| && Rooted(b) && (forall j :: 0 <= j < |a| && j != sc && !(lo <= j < hi) ==> a[j] == b[j])
    && 0 < sc < |a| && a[sc].Nested? && b[sc].Nested? && a[sc].parent == b[sc].parent
    && a[sc].symtab.Keys == b[sc].symtab.Keys
  }

  lemma LaidKept(a: seq<Record>, b: seq<Record>, sc: nat, lo: nat, hi: nat, at: nat, rs: seq<Record>)
    requires KeptIn(a, b, sc, lo, hi) && Laid(a, at, rs) && hi <= at && sc < at
    ensures Laid(b, at, rs)
  {
    hide Rooted;
    assert forall j :: at <= j < at + |rs| ==> a[j] == b[j];
  }

  lemma KeptWider(a: seq<Record>, b: seq<Record>, lo: nat, hi: nat, sc: nat, hi1: nat)
    requires KeptBut(a, b, lo, hi) && hi <= hi1 && 0 < sc < lo && sc < |a| && Rooted(a)
    ensures KeptIn(a, b, sc, lo, hi1)
  {
    assert Hangs(a[sc], sc);
  }

  /** What is kept inside a body is kept outside it. */
  lemma KeptBody(a: seq<Record>, b: seq<Record>, c: seq<Record>, k: nat, lo: nat, mid: nat, hi: nat)
    requires KeptBut(a, b, k, hi) && KeptIn(b, c, k, lo, mid) && k < lo && k < hi && mid <= hi
    ensures KeptBut(a, c, k, hi)
  {
    hide Rooted;
  }

  lemma KeptBoth(a: seq<Record>, b: seq<Record>, c: seq<Record>, lo: nat, mid: nat, hi: nat)
    requires KeptBut(a, b, lo, mid) && KeptBut(b, c, mid, hi) && lo <= mid <= hi
    ensures KeptBut(a, c, lo, hi)
  {
    hide Rooted;
  }

  lemma KeptNone(a: seq<Record>, lo: nat, hi: nat)
    requires Rooted(a)
    ensures KeptBut(a, a, lo, hi)
  {
  }

  lemma KeptChain(a: seq<Record>, b: seq<Record>, lo: nat, hi: nat, sc: nat)
    requires Rooted(a) && KeptBut(a, b, lo, hi) && sc < lo && sc < |a|
    ensures ChainOf(b, sc) == ChainOf(a, sc)
  {
    ChainSame(a, b, sc);
  }

  lemma LaidBut(a: seq<Record>, b: seq<Record>, lo: nat, hi: nat, at: nat, rs: seq<Record>)
    requires KeptBut(a, b, lo, hi) && Laid(a, at, rs) && hi <= at
    ensures Laid(b, at, rs)
  {
    hide Rooted;
    assert forall j :: at <= j < at + |rs| ==> a[j] == b[j];
  }

  // ----- opening a body -----

  /** A body that has not been lowered yet stands in scope `sc`, with the lowering's fresh table. */
  lemma BodyOpens(scopes: seq<Record>, ss: Stmts, sc: nat, offset: nat, lo: nat)
    requires Rooted(scopes) && 0 < lo && sc < lo && Laid(scopes, lo, RecordsBody(ss, sc, offset, lo))
    ensures lo < |scopes| && scopes[lo].Nested? && scopes[lo].parent == sc
    ensures ChainOf(scopes, lo) == Inner(L.BlockTable(ss), ChainOf(scopes, sc))
    ensures Laid(scopes, lo + 1, RecordsIn(ss, lo, offset, lo + 1)) && Declares(scopes[lo].symtab, ss)
  {
    hide RecordsIn, TableAfter, Declares, TempsOf;
    var r := Nested(TableAfter(map[], ss, offset), sc);
    LaidSplit(scopes, lo, [r], RecordsIn(ss, lo, offset, lo + 1));
    LaidAt(scopes, lo, [r], 0);
    BodyTemps(ss, offset);
    TableDeclares(map[], ss, offset);
  }

  /** The number of a variable's storage is written into the record that declares it. */
  function SetTemp(r: Record, name: string, t: nat): Record
    requires name in r.symtab
  {
    r.(symtab := r.symtab[name := r.symtab[name].(tempDest := t)])
  }

  // ----- looking names up -----

  /** The scope that declares the name, outwards from `sc`; -1 if there is none. */
  ghost function OwnerOf(scopes: seq<Record>, sc: nat, name: string): int
    requires Rooted(scopes) && sc < |scopes|
    decreases sc
  {
    if name in scopes[sc].symtab then sc
    else if sc == 0 then -1
    else
      assert Hangs(scopes[sc], sc);
      OwnerOf(scopes, scopes[sc].parent, name)
  }

  /** The scope k parents outwards from `sc`; -1 beyond the globals. */
  ghost function Ancestor(scopes: seq<Record>, sc: nat, k: nat): (at: int)
    requires Rooted(scopes) && sc < |scopes|
    ensures -1 <= at <= sc
    decreases sc
  {
    if k == 0 then sc
    else if sc == 0 then -1
    else
      assert Hangs(scopes[sc], sc);
      Ancestor(scopes, scopes[sc].parent, k - 1)
  }

  /** One parent further. */
  lemma {:induction false} AncestorNext(scopes: seq<Record>, sc: nat, k: nat)
    requires Rooted(scopes) && sc < |scopes| && Ancestor(scopes, sc, k) >= 0
    ensures
      var at := Ancestor(scopes, sc, k);
      Ancestor(scopes, sc, k + 1) == if at == 0 then -1 else assert Hangs(scopes[at], at); scopes[at].parent
    decreases sc
  {
    if sc > 0 {
      assert Hangs(scopes[sc], sc);
      if k > 0 {
        AncestorNext(scopes, scopes[sc].parent, k - 1);
      }
    }
  }

  lemma {:induction false} OwnerIs(scopes: seq<Record>, sc: nat, name: string)
    requires Rooted(scopes) && sc < |scopes|
    ensures
      var at := OwnerOf(scopes, sc, name);
      && -1 <= at <= sc && (at >= 0 ==> name in scopes[at].symtab)
      && Lookup(ChainOf(scopes, sc), name)
         == if at < 0 then Missing else if at == 0 then Global else Local(scopes[at].symtab[name].tempDest)
    decreases sc
  {
    if name !in scopes[sc].symtab && sc != 0 {
      assert Hangs(scopes[sc], sc);
      OwnerIs(scopes, scopes[sc].parent, name);
    }
  }

  /** Writing the number into the owner's record is what `SetLocal` does to the chain. */
  lemma {:induction false} SetOwner(scopes: seq<Record>, sc: nat, name: string, t: nat)
    requires Rooted(scopes) && sc < |scopes| && OwnerOf(scopes, sc, name) >= 0
    ensures
      var at := OwnerOf(scopes, sc, name);
      && at <= sc && name in scopes[at].symtab
      && var b := scopes[at := SetTemp(scopes[at], name, t)];
      && Rooted(b) && ChainOf(b, sc) == SetLocal(ChainOf(scopes, sc), name, t)
    decreases sc
  {
    OwnerIs(scopes, sc, name);
    var at := OwnerOf(scopes, sc, name);
    SetRooted(scopes, at, name, t);
    var b := scopes[at := SetTemp(scopes[at], name, t)];
    if name in scopes[sc].symtab {
      if sc > 0 {
        assert Hangs(scopes[sc], sc);
        ChainSame(scopes, b, scopes[sc].parent);
        assert TempsOf(b[sc].symtab) == TempsOf(scopes[sc].symtab)[name := t];
      }
    } else {
      assert Hangs(scopes[sc], sc);
      OwnerIs(scopes, scopes[sc].parent, name);
      SetOwner(scopes, scopes[sc].parent, name, t);
    }
  }

  lemma SetRooted(scopes: seq<Record>, at: nat, name: string, t: nat)
    requires Rooted(scopes) && at < |scopes| && name in scopes[at].symtab
    ensures Rooted(scopes[at := SetTemp(scopes[at], name, t)])
    ensures at > 0 ==> KeptIn(scopes, scopes[at := SetTemp(scopes[at], name, t)], at, |scopes|, |scopes|)
  {
    var b := scopes[at := SetTemp(scopes[at], name, t)];
    forall i | 0 < i < |b|
      ensures Hangs(b[i], i)
    {
      assert Hangs(scopes[i], i);
    }
  }

  // ----- the file -----

  /** Every scope of a parsed file hangs below the one it stands in. */
  lemma {:induction false} RecordsHang(s: Stmt, sc: nat, offset: nat, lo: nat, i: nat)
    requires sc < lo && i < Width(s)
    ensures Hangs(Records(s, sc, offset, lo)[i], lo + i)
    decreases s, 0
  {
    hide RecordsBody;
    match s
    case Block(body) => BodyHangs(body, sc, offset, lo, i);
    case If(links) => ChainHangs(links, sc, offset, lo, i);
    case While(_, body) => BodyHangs(body, sc, offset, lo, i);
    case _ =>
  }

  lemma {:induction false} BodyHangs(body: Stmts, sc: nat, offset: nat, lo: nat, i: nat)
    requires sc < lo && i < 1 + WidthIn(body)
    ensures Hangs(RecordsBody(body, sc, offset, lo)[i], lo + i)
    decreases body, 1
  {
    hide RecordsIn, TableAfter;
    if i == 0 {
      TableKinds(map[], body, offset);
    } else {
      StmtsHang(body, lo, offset, lo + 1, i - 1);
    }
  }

  lemma {:induction false} TableKinds(tab: Table, ss: Stmts, offset: nat)
    requires forall x :: x in tab ==> tab[x].kind.AutoVar?
    ensures forall x :: x in TableAfter(tab, ss, offset) ==> TableAfter(tab, ss, offset)[x].kind.AutoVar?
    decreases ss
  {
    match ss
    case NoStmts =>
    case MoreStmts(s, next) =>
      TableKinds(if s.Auto? then tab[s.name := VarInfo(AutoVar, offset + s.size, 0)] else tab, next,
                 OffsetAfter(s, offset));
  }

  lemma {:induction false} StmtsHang(ss: Stmts, sc: nat, offset: nat, lo: nat, i: nat)
    requires sc < lo && i < WidthIn(ss)
    ensures Hangs(RecordsIn(ss, sc, offset, lo)[i], lo + i)
    decreases ss, 0
  {
    hide Records, Width, OffsetAfter, Hangs;
    match ss
    case MoreStmts(s, next) =>
      if i < Width(s) {
        RecordsHang(s, sc, offset, lo, i);
      } else {
        StmtsHang(next, sc, OffsetAfter(s, offset), lo + Width(s), i - Width(s));
      }
  }

  lemma {:induction false} ChainHangs(c: Chain, sc: nat, offset: nat, lo: nat, i: nat)
    requires sc < lo && i < WidthOf(c)
    ensures Hangs(RecordsOf(c, sc, offset, lo)[i], lo + i)
    decreases c, 0
  {
    hide RecordsBody, WidthIn, Hangs;
    match c
    case Link(_, body, chain) =>
      if i < 1 + WidthIn(body) {
        BodyHangs(body, sc, offset, lo, i);
      } else {
        ChainHangs(chain, sc, offset, lo + 1 + WidthIn(body), i - 1 - WidthIn(body));
      }
    case Else(body) => BodyHangs(body, sc, offset, lo, i);
  }

  // ----- parents -----

  /** The parent of every body in the tree is the scope that the body stands in. */
  ghost predicate Encloses(scopes: seq<Record>, n: Node, sc: nat) {
    match n
    case PlainNode(_) => true
    case ScopeNode(body) => StandsIn(scopes, body, sc)
    case IfNode(links) => LinksStandIn(scopes, links, sc)
    case WhileNode(_, body) => StandsIn(scopes, body, sc)
  }

  ghost predicate StandsIn(scopes: seq<Record>, body: Body, sc: nat) {
    && body.id < |scopes| && scopes[body.id].Nested? && scopes[body.id].parent == sc
    && EnclosesAll(scopes, body.nodes, body.id)
  }

  ghost predicate EnclosesAll(scopes: seq<Record>, ns: NodeList, sc: nat) {
    match ns
    case NoNodes => true
    case MoreNodes(n, next) => Encloses(scopes, n, sc) && EnclosesAll(scopes, next, sc)
  }

  ghost predicate LinksStandIn(scopes: seq<Record>, links: Links, sc: nat) {
    match links
    case NoLinks => true
    case LinkNode(_, body, chain) => StandsIn(scopes, body, sc) && LinksStandIn(scopes, chain, sc)
    case ElseNode(body) => StandsIn(scopes, body, sc)
  }

  lemma {:induction false} DressedEncloses(scopes: seq<Record>, s: Stmt, sc: nat, offset: nat, lo: nat)
    requires Laid(scopes, lo, Records(s, sc, offset, lo))
    ensures Encloses(scopes, Dress(s, lo), sc)
    decreases s, 1
  {
    hide Laid, StandsIn, LinksStandIn, DressBody, DressOf, RecordsBody, RecordsOf;
    match s
    case Block(body) => BodyStandsIn(scopes, body, sc, offset, lo);
    case If(links) => ChainStandsIn(scopes, links, sc, offset, lo);
    case While(_, body) => BodyStandsIn(scopes, body, sc, offset, lo);
    case _ =>
  }

  lemma {:induction false} BodyStandsIn(scopes: seq<Record>, body: Stmts, sc: nat, offset: nat, lo: nat)
    requires Laid(scopes, lo, RecordsBody(body, sc, offset, lo))
    ensures StandsIn(scopes, DressBody(body, lo), sc)
    decreases body, 2
  {
    hide Laid, RecordsIn, DressIn, TableAfter;
    LaidSplit(scopes, lo, [Nested(TableAfter(map[], body, offset), sc)], RecordsIn(body, lo, offset, lo + 1));
    LaidAt(scopes, lo, [Nested(TableAfter(map[], body, offset), sc)], 0);
    StmtsEnclosed(scopes, body, lo, offset, lo + 1);
  }

  lemma {:induction false} StmtsEnclosed(scopes: seq<Record>, ss: Stmts, sc: nat, offset: nat, lo: nat)
    requires Laid(scopes, lo, RecordsIn(ss, sc, offset, lo))
    ensures EnclosesAll(scopes, DressIn(ss, lo), sc)
    decreases ss, 0
  {
    hide Laid, Records, Dress, Width, OffsetAfter, Encloses;
    match ss
    case NoStmts =>
    case MoreStmts(s, next) =>
      LaidSplit(scopes, lo, Records(s, sc, offset, lo), RecordsIn(next, sc, OffsetAfter(s, offset), lo + Width(s)));
      DressedEncloses(scopes, s, sc, offset, lo);
      StmtsEnclosed(scopes, next, sc, OffsetAfter(s, offset), lo + Width(s));
  }

  lemma {:induction false} ChainStandsIn(scopes: seq<Record>, c: Chain, sc: nat, offset: nat, lo: nat)
    requires Laid(scopes, lo, RecordsOf(c, sc, offset, lo))
    ensures LinksStandIn(scopes, DressOf(c, lo), sc)
    decreases c, 0
  {
    hide Laid, RecordsBody, DressBody, StandsIn, WidthIn;
    match c
    case NoChain =>
    case Else(body) => BodyStandsIn(scopes, body, sc, offset, lo);
    case Link(_, body, chain) =>
      var mid := lo + 1 + WidthIn(body);
      LaidSplit(scopes, lo, RecordsBody(body, sc, offset, lo), RecordsOf(chain, sc, offset, mid));
      BodyStandsIn(scopes, body, sc, offset, lo);
      ChainStandsIn(scopes, chain, sc, offset, mid);
  }

  // ----- records of a file -----

  lemma {:induction false} ItemPlace(items: seq<R.Item>, i: nat)
    requires i < |items|
    ensures DressItems(items)[i] == DressItem(items[i], 1 + ItemsWidth(items[..i]))
    ensures ItemsWidth(items[..i]) + ItemWidth(items[i]) <= ItemsWidth(items)
    ensures Laid(ItemsRecords(items), ItemsWidth(items[..i]), ItemRecords(items[i], 1 + ItemsWidth(items[..i])))
    decreases |items|
  {
    hide DressItem, ItemRecords, ItemWidth, Laid;
    var n := |items| - 1;
    var a, z := ItemsRecords(items[..n]), ItemRecords(items[n], 1 + ItemsWidth(items[..n]));
    if i < n {
      ItemPlace(items[..n], i);
      assert items[..n][..i] == items[..i];
      LaidLonger(a, z, ItemsWidth(items[..i]), ItemRecords(items[i], 1 + ItemsWidth(items[..i])));
    } else {
      LaidLast(a, z);
    }
  }

  lemma LaidLonger(a: seq<Record>, z: seq<Record>, at: nat, rs: seq<Record>)
    requires Laid(a, at, rs)
    ensures Laid(a + z, at, rs)
  {
    assert (a + z)[at..at + |rs|] == a[at..at + |rs|];
  }

  lemma LaidLast(a: seq<Record>, z: seq<Record>)
    ensures Laid(a + z, |a|, z)
  {
  }

  lemma LaidAfter(r: Record, a: seq<Record>, at: nat, rs: seq<Record>)
    requires Laid(a, at, rs)
    ensures Laid([r] + a, 1 + at, rs)
  {
    assert ([r] + a)[1 + at..1 + at + |rs|] == a[at..at + |rs|];
  }

  lemma {:induction false} ItemLaid(items: seq<R.Item>, nodes: seq<ItemNode>, scopes: seq<Record>, i: nat)
    requires Filed(items, nodes, scopes) && i < |items|
    ensures |nodes| == |items| && nodes[i] == DressItem(items[i], 1 + ItemsWidth(items[..i]))
    ensures Laid(scopes, 1 + ItemsWidth(items[..i]), ItemRecords(items[i], 1 + ItemsWidth(items[..i])))
    ensures FormedItem(items[i])
  {
    hide DressItem, ItemRecords, FormedItem, Laid;
    ItemPlace(items, i);
    LaidAfter(Root(GlobalTable(items)), ItemsRecords(items), ItemsWidth(items[..i]),
              ItemRecords(items[i], 1 + ItemsWidth(items[..i])));
  }

  /** In every parsed file the parent of a body's scope is the scope that the body stands in; the body
      of a function stands in the scope of its parameters, and that in the scope of the globals. */
  lemma {:induction false} ParentsEnclose(items: seq<R.Item>, nodes: seq<ItemNode>, scopes: seq<Record>, i: nat)
    requires Filed(items, nodes, scopes) && i < |items| && items[i].FunctionItem?
    ensures |nodes| == |items| && nodes[i].FunctionNode?
    ensures
      var tab := nodes[i].paramsTab;
      && 0 < tab < |scopes| && scopes[tab] == Nested(ParamTable(items[i].params), 0)
      && Encloses(scopes, nodes[i].body, tab)
  {
    hide Filed, ItemsWidth, Laid, Records, Dress, ParamTable, Encloses, Labelled;
    ItemLaid(items, nodes, scopes, i);
    var x, lo := items[i], 1 + ItemsWidth(items[..i]);
    var r := Nested(ParamTable(x.params), 0);
    LaidSplit(scopes, lo, [r], Records(x.body, lo, 1 + |x.params|, lo + 1));
    LaidAt(scopes, lo, [r], 0);
    DressedEncloses(scopes, x.body, lo, 1 + |x.params|, lo + 1);
  }
}
