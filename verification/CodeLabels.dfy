/** Control flow of lowered code: every label number is defined once, and every jump and
    branch goes to a label of the same function. */
module CodeLabels {
  import opened Words
  import opened Ast
  import opened Scopes
  import opened Ir
  import opened Lowering
  import opened CodeShape

  ghost predicate Unique(code: seq<Instr>) {
    forall i, j :: 0 <= i < j < |code| && code[i].Label? ==> code[i] != code[j]
  }

  /** Numbers are given once and counted. */
  ghost predicate Sound(cx: Context) {
    && (forall x :: x in cx.table ==> cx.table[x] <= cx.labels)
    && (forall x, y :: x in cx.table && y in cx.table && x != y && cx.table[x] != 0 ==>
          cx.table[x] != cx.table[y])
  }

  /** Labels keep their numbers; new numbers come from the counter. */
  ghost predicate Grows(cx: Context, cx1: Context) {
    && cx.labels <= cx1.labels
    && cx1.table.Keys == cx.table.Keys
    && (forall x :: x in cx.table ==>
          && (cx.table[x] != 0 ==> cx1.table[x] == cx.table[x])
          && (cx.table[x] == 0 ==> cx1.table[x] == 0 || cx.labels < cx1.table[x] <= cx1.labels))
  }

  /** The numbers that lowering from `cx` to `cx1` may define: fresh ones that belong to no
      user label, and those of the labels it passed. */
  ghost predicate Fresh(id: nat, cx: Context, cx1: Context) {
    cx.labels < id <= cx1.labels && forall x :: x in cx1.table ==> cx1.table[x] != id
  }

  ghost predicate Owned(id: nat, names: seq<string>, cx1: Context) {
    exists x :: x in names && x in cx1.table && cx1.table[x] == id && id != 0
  }

  ghost predicate Defines(code: seq<Instr>, names: seq<string>, cx: Context, cx1: Context) {
    && Unique(code)
    && (forall i :: 0 <= i < |code| && code[i].Label? ==>
          Fresh(code[i].id, cx, cx1) || Owned(code[i].id, names, cx1))
    && (forall x :: x in names ==>
          x in cx1.table && cx1.table[x] != 0 && Label(cx1.table[x]) in code)
  }

  ghost predicate Used(id: nat, cx1: Context) {
    exists x :: x in cx1.table && cx1.table[x] == id && id != 0
  }

  /** Every target is defined here, is a user label's, or is one of `exits`. */
  ghost predicate Closed(code: seq<Instr>, cx1: Context, exits: set<nat>) {
    && (forall i :: 0 <= i < |code| && code[i].Jump? ==>
          Label(code[i].id) in code || code[i].id in exits || Used(code[i].id, cx1))
    && (forall i :: 0 <= i < |code| && code[i].Branch? ==>
          Label(code[i].yes) in code && Label(code[i].no) in code)
  }

  lemma GrowsTrans(cx: Context, cx1: Context, cx2: Context)
    requires Grows(cx, cx1) && Grows(cx1, cx2)
    ensures Grows(cx, cx2)
  {
  }

  lemma UsedGrows(id: nat, cx1: Context, cx2: Context)
    requires Used(id, cx1) && Grows(cx1, cx2)
    ensures Used(id, cx2)
  {
    var x :| x in cx1.table && cx1.table[x] == id && id != 0;
    assert x in cx2.table && cx2.table[x] == id;
  }

  lemma OwnedGrows(id: nat, names: seq<string>, more: seq<string>, cx1: Context, cx2: Context)
    requires Owned(id, names, cx1) && Grows(cx1, cx2) && (forall x :: x in names ==> x in more)
    ensures Owned(id, more, cx2)
  {
    var x :| x in names && x in cx1.table && cx1.table[x] == id && id != 0;
    assert x in more && x in cx2.table && cx2.table[x] == id;
  }

  lemma FreshGrows(id: nat, cx0: Context, cx: Context, cx1: Context, cx2: Context)
    requires Fresh(id, cx, cx1) && cx0.labels <= cx.labels && Grows(cx1, cx2)
    ensures Fresh(id, cx0, cx2)
  {
  }

  /** The definitions of consecutive pieces of code do not meet. */
  lemma Disjoint(id: nat, a: seq<string>, b: seq<string>, cx: Context, cx1: Context, cx2: Context)
    requires Fresh(id, cx, cx1) || Owned(id, a, cx1)
    requires Sound(cx1) && Sound(cx2) && Grows(cx1, cx2) && Distinct(a + b)
    ensures !Fresh(id, cx1, cx2) && !Owned(id, b, cx2)
  {
    forall x, y | x in a && y in b
      ensures x != y
    {
      DistinctApart(a, b, x, y);
    }
  }

  lemma DistinctApart(a: seq<string>, b: seq<string>, x: string, y: string)
    requires Distinct(a + b) && x in a && y in b
    ensures x != y
  {
    var i :| 0 <= i < |a| && a[i] == x;
    var j :| 0 <= j < |b| && b[j] == y;
    assert (a + b)[i] == x && (a + b)[|a| + j] == y;
  }

  lemma DefinesSum(a: seq<Instr>, b: seq<Instr>, na: seq<string>, nb: seq<string>, cx: Context,
                   cx1: Context, cx2: Context)
    requires Defines(a, na, cx, cx1) && Defines(b, nb, cx1, cx2)
    requires Grows(cx, cx1) && Grows(cx1, cx2) && Sound(cx1) && Sound(cx2)
    requires Distinct(na + nb)
    ensures Defines(a + b, na + nb, cx, cx2)
  {
    hide Sound, Grows, Fresh, Owned;
    var code := a + b;
    forall i, j | 0 <= i < j < |code| && code[i].Label?
      ensures code[i] != code[j]
    {
      if i < |a| <= j && code[i] == code[j] {
        assert code[i] == a[i] && code[j] == b[j - |a|];
        Disjoint(a[i].id, na, nb, cx, cx1, cx2);
      }
    }
    forall i | 0 <= i < |code| && code[i].Label?
      ensures Fresh(code[i].id, cx, cx2) || Owned(code[i].id, na + nb, cx2)
    {
      if i < |a| {
        Carry(a[i].id, na, na + nb, cx, cx, cx1, cx2);
      } else {
        GrowsSelf(cx2);
        GrowsCount(cx, cx1);
        Carry(b[i - |a|].id, nb, na + nb, cx, cx1, cx2, cx2);
      }
    }
    forall x | x in na + nb
      ensures x in cx2.table && cx2.table[x] != 0 && Label(cx2.table[x]) in code
    {
      if x in na {
        GrowsKeeps(cx1, cx2, x);
      }
    }
  }

  lemma Carry(id: nat, names: seq<string>, more: seq<string>, cx0: Context, cx: Context, cx1: Context,
              cx2: Context)
    requires Fresh(id, cx, cx1) || Owned(id, names, cx1)
    requires cx0.labels <= cx.labels && Grows(cx1, cx2) && forall x :: x in names ==> x in more
    ensures Fresh(id, cx0, cx2) || Owned(id, more, cx2)
  {
    if Owned(id, names, cx1) {
      OwnedGrows(id, names, more, cx1, cx2);
    } else {
      FreshGrows(id, cx0, cx, cx1, cx2);
    }
  }

  lemma GrowsSelf(cx: Context)
    ensures Grows(cx, cx)
  {
  }

  lemma GrowsFrom(cx: Context, cxb: Context, cx1: Context)
    requires Grows(cxb, cx1) && cxb.table == cx.table && cx.labels <= cxb.labels
    ensures Grows(cx, cx1)
  {
  }

  lemma GrowsCount(cx: Context, cx1: Context)
    requires Grows(cx, cx1)
    ensures cx.labels <= cx1.labels
  {
  }

  lemma GrowsKeeps(cx: Context, cx1: Context, x: string)
    requires Grows(cx, cx1) && x in cx.table && cx.table[x] != 0
    ensures x in cx1.table && cx1.table[x] == cx.table[x]
  {
  }

  lemma ClosedSum(a: seq<Instr>, b: seq<Instr>, cx1: Context, cx2: Context, exits: set<nat>)
    requires Closed(a, cx1, exits) && Closed(b, cx2, exits) && Grows(cx1, cx2)
    ensures Closed(a + b, cx2, exits)
  {
    hide Used, Grows;
    var code := a + b;
    assert forall x :: x in a || x in b ==> x in code;
    forall i | 0 <= i < |code| && code[i].Jump?
      ensures Label(code[i].id) in code || code[i].id in exits || Used(code[i].id, cx2)
    {
      if i < |a| && Used(a[i].id, cx1) {
        UsedGrows(a[i].id, cx1, cx2);
      }
    }
  }

  /** A block with labels around it whose numbers were taken before the block. */
  lemma Surround(a: seq<Instr>, block: seq<Instr>, d: seq<Instr>, names: seq<string>, cx: Context,
                 cxb: Context, cx1: Context)
    requires Defines(block, names, cxb, cx1) && Unique(a + d)
    requires Sound(cx) && Grows(cxb, cx1) && cxb.table == cx.table && cx.labels <= cxb.labels
    requires forall x :: (x in a || x in d) && x.Label? ==> cx.labels < x.id <= cxb.labels
    ensures Defines(a + block + d, names, cx, cx1)
  {
    hide Sound, Grows, Fresh, Owned;
    var code := a + block + d;
    forall x | (x in a || x in d) && x.Label?
      ensures Fresh(x.id, cx, cx1) && x !in block
    {
      Taken(x.id, names, cx, cxb, cx1);
    }
    forall i, j | 0 <= i < j < |code| && code[i].Label?
      ensures code[i] != code[j]
    {
      var n, m := |a|, |a + block|;
      if i < n && j >= m {
        assert code[i] == (a + d)[i] && code[j] == (a + d)[n + (j - m)];
      } else if i < n && j < n {
        assert code[i] == (a + d)[i] && code[j] == (a + d)[j];
      } else if i >= m {
        assert code[i] == (a + d)[n + (i - m)] && code[j] == (a + d)[n + (j - m)];
      } else if i < n {
        assert code[i] in a && code[j] in block;
      } else if j >= m {
        assert code[j] in d && code[i] in block;
      } else {
        assert code[i] == block[i - n] && code[j] == block[j - n];
      }
    }
    forall i | 0 <= i < |code| && code[i].Label?
      ensures Fresh(code[i].id, cx, cx1) || Owned(code[i].id, names, cx1)
    {
      if |a| <= i < |a + block| {
        GrowsSelf(cx1);
        Carry(block[i - |a|].id, names, names, cx, cxb, cx1, cx1);
      } else {
        assert code[i] in a || code[i] in d;
      }
    }
  }

  lemma Taken(id: nat, names: seq<string>, cx: Context, cxb: Context, cx1: Context)
    requires Sound(cx) && Grows(cxb, cx1) && cxb.table == cx.table
    requires cx.labels < id <= cxb.labels
    ensures Fresh(id, cx, cx1)
    ensures !(Fresh(id, cxb, cx1) || Owned(id, names, cx1))
  {
  }

  // ----- the lemma for every kind of code -----

  /** What lowering keeps, for code that defines the labels `names`. */
  ghost predicate Kept(low: LowStmt, names: seq<string>, cx: Context, exits: set<nat>) {
    && low.Lowered?
    && Sound(low.cx) && Grows(cx, low.cx)
    && (Distinct(names) ==> Defines(low.code, names, cx, low.cx))
    && Closed(low.code, low.cx, exits)
  }

  lemma PlainKept(code: seq<Instr>, cx: Context, cx1: Context, exits: set<nat>)
    requires forall i :: 0 <= i < |code| ==> !code[i].Label? && !code[i].Jump? && !code[i].Branch?
    requires Sound(cx) && cx1.labels == cx.labels && cx1.table == cx.table
    ensures Kept(Lowered(code, cx1), [], cx, exits)
  {
  }

  lemma {:induction false} StmtKept(s: Stmt, cx: Context)
    requires LowerStmt(s, cx).Lowered? && Sound(cx)
    ensures Kept(LowerStmt(s, cx), Labels(s), cx, {})
    decreases s, 1
  {
    hide LowerExpr, LowerBlock, LowerWhile, LowerChain, Kept, Plain;
    match s
    case Return(e) =>
      ExprPlain(e, cx.scope, cx.temps);
      PlainEnd(LowerExpr(e, cx.scope, cx.temps).code, LowerExpr(e, cx.scope, cx.temps).out);
      PlainKept(LowerStmt(s, cx).code, cx, LowerStmt(s, cx).cx, {});
    case Block(body) => BlockKept(body, cx);
    case Auto(_, _) => PlainKept(LowerStmt(s, cx).code, cx, LowerStmt(s, cx).cx, {});
    case Extrn(_) => PlainKept([], cx, cx, {});
    case Simple(e) =>
      ExprPlain(e, cx.scope, cx.temps);
      PlainEnd(LowerExpr(e, cx.scope, cx.temps).code, 0);
      PlainKept(LowerStmt(s, cx).code, cx, LowerStmt(s, cx).cx, {});
    case If(links) => IfKept(links, cx);
    case While(cond, body) => WhileKept(cond, body, cx);
    case Lable(name) => LabelKept(name, cx);
    case Goto(name) => GotoKept(name, cx);
  }

  lemma PlainEnd(code: seq<Instr>, t: nat)
    requires Plain(code)
    ensures forall i :: 0 <= i < |code| ==> !code[i].Label? && !code[i].Jump? && !code[i].Branch?
    ensures forall i :: 0 <= i < |code + [Instr.Return(t)]| ==>
              var x := (code + [Instr.Return(t)])[i]; !x.Label? && !x.Jump? && !x.Branch?
  {
  }

  lemma NumberedSound(cx: Context, name: string)
    requires Sound(cx) && name in cx.table
    ensures Sound(Numbered(cx, name)) && Grows(cx, Numbered(cx, name))
    ensures name in Numbered(cx, name).table && Numbered(cx, name).table[name] != 0
  {
  }

  lemma LabelKept(name: string, cx: Context)
    requires name in cx.table && Sound(cx)
    ensures Kept(Lowered([Label(Numbered(cx, name).table[name])], Numbered(cx, name)), [name], cx, {})
  {
    hide Sound, Grows;
    NumberedSound(cx, name);
    var cx1 := Numbered(cx, name);
    assert name in [name] && name in cx1.table;
  }

  lemma GotoKept(name: string, cx: Context)
    requires name in cx.table && Sound(cx)
    ensures Kept(Lowered([Jump(Numbered(cx, name).table[name])], Numbered(cx, name)), [], cx, {})
  {
    hide Sound, Grows;
    NumberedSound(cx, name);
    assert name in Numbered(cx, name).table;
  }

  lemma {:induction false} IfKept(links: Chain, cx: Context)
    requires LowerIf(links, cx).Lowered? && Sound(cx)
    ensures Kept(LowerIf(links, cx), LabelsOf(links), cx, {})
    decreases If(links), 0
  {
    hide LowerChain, LabelsOf, Sound, Defines;
    var end := cx.labels + 1;
    var cxb := cx.(labels := end);
    SoundMore(cx, end);
    ChainKept(links, end, cxb);
    var low := LowerChain(links, end, cxb);
    assert Unique([] + [Label(end)]);
    if Distinct(LabelsOf(links)) {
      Surround([], low.code, [Label(end)], LabelsOf(links), cx, cxb, low.cx);
      assert [] + low.code + [Label(end)] == low.code + [Label(end)];
    }
    ClosedEnd(low.code, [Label(end)], low.cx, end);
  }

  lemma SoundMore(cx: Context, n: nat)
    requires Sound(cx) && n >= cx.labels
    ensures Sound(cx.(labels := n))
  {
  }

  lemma ClosedEnd(a: seq<Instr>, d: seq<Instr>, cx1: Context, end: nat)
    requires Closed(a, cx1, {end}) && d == [Label(end)]
    ensures Closed(a + d, cx1, {})
  {
    hide Used;
    assert Label(end) in d;
    assert forall x :: x in a || x in d ==> x in a + d;
  }

  lemma {:induction false} WhileKept(cond: Expr, body: Stmts, cx: Context)
    requires LowerWhile(cond, body, cx).Lowered? && Sound(cx)
    ensures Kept(LowerWhile(cond, body, cx), LabelsIn(body), cx, {})
    decreases body, 2
  {
    hide LowerExpr, LowerBlock, LabelsIn, Sound, Plain, Kept, Unique;
    var n := cx.labels;
    var low := LowerExpr(cond, cx.scope, cx.temps);
    var cxb := cx.(temps := low.temps, labels := n + 3);
    SoundTemps(cx, low.temps, n + 3);
    BlockKept(body, cxb);
    ExprPlain(cond, cx.scope, cx.temps);
    var b := LowerBlock(body, cxb);
    var a := [Label(n + 1)] + low.code + [Branch(low.out, n + 2, n + 3), Label(n + 2)];
    var d := [Jump(n + 1), Label(n + 3)];
    LabelsAround([Label(n + 1)], low.code, Branch(low.out, n + 2, n + 3), n + 2, d, n + 1, n + 3);
    Enclosed(a, b, d, LabelsIn(body), cx, cxb, {});
  }

  lemma SoundTemps(cx: Context, t: nat, n: nat)
    requires Sound(cx) && n >= cx.labels
    ensures Sound(cx.(temps := t, labels := n))
  {
  }

  /** The labels and targets around the block of a loop (`top` is [Label(l)]) or of an `if`
      (`top` is empty). */
  lemma LabelsAround(top: seq<Instr>, code: seq<Instr>, br: Instr, inner: nat, d: seq<Instr>, l: nat, next: nat)
    requires Plain(code)
    requires top == [] || top == [Label(l)]
    requires d == [Jump(l), Label(next)]
    requires br.Branch? && br.yes == inner && br.no == next
    requires next != inner && (top != [] ==> l != inner && l != next)
    ensures var a := top + code + [br, Label(inner)];
      && Unique(a + d)
      && (forall x :: x in a + d && x.Label? ==> x == Label(inner) || x == Label(next) || (top != [] && x == Label(l)))
      && (forall x :: x in a + d && x.Branch? ==> x == br)
      && (forall x :: x in a + d && x.Jump? ==> x == Jump(l))
      && Label(inner) in a && Label(next) in d && (top != [] ==> Label(l) in a)
  {
    var a := top + code + [br, Label(inner)];
    assert a[|top| + |code| + 1] == Label(inner);
    assert d[1] == Label(next);
    if top != [] {
      assert a[0] == Label(l);
    }
    forall i | 0 <= i < |a + d|
      ensures var x := (a + d)[i];
        && (x.Label? ==> || (x == Label(inner) && i == |top| + |code| + 1)
                         || (x == Label(next) && i == |a| + 1)
                         || (top != [] && x == Label(l) && i == 0))
        && (x.Branch? ==> x == br) && (x.Jump? ==> x == Jump(l))
    {
      if |top| <= i < |top| + |code| {
        assert (a + d)[i] == code[i - |top|];
      }
    }
  }

  lemma ClosedAround(a: seq<Instr>, block: seq<Instr>, d: seq<Instr>, cx1: Context, exits: set<nat>)
    requires Closed(block, cx1, {})
    requires forall x :: x in a + d && x.Branch? ==> (Label(x.yes) in a + d) && (Label(x.no) in a + d)
    requires forall x :: x in a + d && x.Jump? ==> x.id in exits || Label(x.id) in a + d
    ensures Closed(a + block + d, cx1, exits)
  {
    hide Used;
    var code := a + block + d;
    assert forall x :: x in a + d || x in block ==> x in code;
    forall i | 0 <= i < |code|
      ensures code[i] in block || code[i] in a + d
    {
    }
    forall i | 0 <= i < |code| && code[i].Jump?
      ensures Label(code[i].id) in code || code[i].id in exits || Used(code[i].id, cx1)
    {
      if code[i] in block {
        var j :| 0 <= j < |block| && block[j] == code[i];
      }
    }
    forall i | 0 <= i < |code| && code[i].Branch?
      ensures Label(code[i].yes) in code && Label(code[i].no) in code
    {
      if code[i] in block {
        var j :| 0 <= j < |block| && block[j] == code[i];
      }
    }
  }

  /** What is kept by a block is kept by the block with labels around it. */
  lemma Enclosed(a: seq<Instr>, b: LowStmt, d: seq<Instr>, names: seq<string>, cx: Context,
                 cxb: Context, exits: set<nat>)
    requires Kept(b, names, cxb, {}) && Unique(a + d)
    requires Sound(cx) && cxb.table == cx.table && cx.labels <= cxb.labels
    requires forall x :: x in a + d && x.Label? ==> cx.labels < x.id <= cxb.labels
    requires forall x :: x in a + d && x.Branch? ==> (Label(x.yes) in a + d) && (Label(x.no) in a + d)
    requires forall x :: x in a + d && x.Jump? ==> x.id in exits || Label(x.id) in a + d
    ensures Kept(Lowered(a + b.code + d, b.cx), names, cx, exits)
  {
    hide Sound, Grows, Defines, Closed, Unique;
    GrowsFrom(cx, cxb, b.cx);
    ClosedAround(a, b.code, d, b.cx, exits);
    if Distinct(names) {
      Surround(a, b.code, d, names, cx, cxb, b.cx);
    }
  }

  lemma LinkCode(cond: Expr, body: Stmts, end: nat, cx: Context)
    requires LowerLink(cond, body, end, cx).Lowered?
    ensures
      var n, low := cx.labels, LowerExpr(cond, cx.scope, cx.temps);
      && low.Low?
      && var b := LowerBlock(body, cx.(temps := low.temps, labels := n + 2));
      && b.Lowered?
      && LowerLink(cond, body, end, cx)
         == Lowered(low.code + [Branch(low.out, n + 1, n + 2), Label(n + 1)] + b.code + [Jump(end), Label(n + 2)], b.cx)
  {
    hide LowerExpr, LowerBlock;
  }

  lemma {:induction false} LinkKept(cond: Expr, body: Stmts, end: nat, cx: Context)
    requires LowerLink(cond, body, end, cx).Lowered? && Sound(cx)
    ensures Kept(LowerLink(cond, body, end, cx), LabelsIn(body), cx, {end})
    decreases body, 2
  {
    hide LowerExpr, LowerBlock, LowerLink, LabelsIn, Sound, Plain, Kept, Unique;
    LinkCode(cond, body, end, cx);
    var n := cx.labels;
    var low := LowerExpr(cond, cx.scope, cx.temps);
    var cxb := cx.(temps := low.temps, labels := n + 2);
    SoundTemps(cx, low.temps, n + 2);
    BlockKept(body, cxb);
    ExprPlain(cond, cx.scope, cx.temps);
    var b := LowerBlock(body, cxb);
    assert [] + low.code == low.code;
    var a := low.code + [Branch(low.out, n + 1, n + 2), Label(n + 1)];
    var d := [Jump(end), Label(n + 2)];
    LabelsAround([], low.code, Branch(low.out, n + 1, n + 2), n + 1, d, end, n + 2);
    Enclosed(a, b, d, LabelsIn(body), cx, cxb, {end});
  }

  lemma {:induction false} BlockKept(body: Stmts, cx: Context)
    requires LowerBlock(body, cx).Lowered? && Sound(cx)
    ensures Kept(LowerBlock(body, cx), LabelsIn(body), cx, {})
    decreases body, 1
  {
    hide LowerStmts, LabelsIn;
    var cxb := cx.(scope := Inner(BlockTable(body), cx.scope));
    StmtsKept(body, cxb);
  }

  lemma KeptSum(l1: LowStmt, l2: LowStmt, n1: seq<string>, n2: seq<string>, cx: Context, e: set<nat>)
    requires l1.Lowered? && Kept(l1, n1, cx, e) && Kept(l2, n2, l1.cx, e)
    ensures Kept(Lowered(l1.code + l2.code, l2.cx), n1 + n2, cx, e)
  {
    hide Sound, Grows, Defines, Closed;
    GrowsTrans(cx, l1.cx, l2.cx);
    ClosedSum(l1.code, l2.code, l1.cx, l2.cx, e);
    if Distinct(n1 + n2) {
      DistinctSum(n1, n2);
      DefinesSum(l1.code, l2.code, n1, n2, cx, l1.cx, l2.cx);
    }
  }

  lemma DistinctSum(a: seq<string>, b: seq<string>)
    requires Distinct(a + b)
    ensures Distinct(a) && Distinct(b)
  {
    assert forall i :: 0 <= i < |a| ==> a[i] == (a + b)[i];
    assert forall i :: 0 <= i < |b| ==> b[i] == (a + b)[|a| + i];
  }

  lemma {:induction false} StmtsKept(ss: Stmts, cx: Context)
    requires LowerStmts(ss, cx).Lowered? && Sound(cx)
    ensures Kept(LowerStmts(ss, cx), LabelsIn(ss), cx, {})
    decreases ss, 0
  {
    match ss
    case NoStmts => PlainKept([], cx, cx, {});
    case MoreStmts(s, next) =>
      hide LowerStmt, Sound, Grows, Defines, Closed, Labels;
      var l1 := LowerStmt(s, cx);
      StmtKept(s, cx);
      StmtsKept(next, l1.cx);
      KeptSum(l1, LowerStmts(next, l1.cx), Labels(s), LabelsIn(next), cx, {});
  }

  lemma {:induction false} ChainKept(links: Chain, end: nat, cx: Context)
    requires LowerChain(links, end, cx).Lowered? && Sound(cx)
    ensures Kept(LowerChain(links, end, cx), LabelsOf(links), cx, {end})
    decreases links
  {
    match links
    case NoChain => PlainKept([], cx, cx, {end});
    case Else(body) =>
      hide LowerBlock, Sound, Grows, Defines, LabelsIn, Used;
      BlockKept(body, cx);
    case Link(cond, body, chain) =>
      hide LowerLink, Sound, Grows, Defines, Closed, LabelsIn;
      var l1 := LowerLink(cond, body, end, cx);
      LinkKept(cond, body, end, cx);
      ChainKept(chain, end, l1.cx);
      KeptSum(l1, LowerChain(chain, end, l1.cx), LabelsIn(body), LabelsOf(chain), cx, {end});
  }
}
