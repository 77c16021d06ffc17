/** Which declaration a name denotes. The tables of a chain are numbered outwards, the innermost
    being number 0; what `Lookup` answers is stated by those numbers alone. */
module Naming {
  import opened Words
  import opened Ast
  import opened Scopes
  import S = Source
  import L = Lowering
  import I = Ir
  import Tok = Tokens

  /** The number of tables below the globals. */
  function Tables(sc: Scope): nat {
    match sc
    case Globals(_) => 0
    case Inner(_, parent) => 1 + Tables(parent)
  }

  /** Table k, counted outwards. */
  function TableAt(sc: Scope, k: nat): map<string, nat>
    requires k < Tables(sc)
  {
    if k == 0 then sc.symtab else TableAt(sc.parent, k - 1)
  }

  /** The names of the globals. */
  function Outermost(sc: Scope): set<string> {
    match sc
    case Globals(names) => names
    case Inner(_, parent) => Outermost(parent)
  }

  /** None of the first k tables declares the name. */
  predicate Undeclared(sc: Scope, name: string, k: nat)
    requires k <= Tables(sc)
  {
    forall j :: 0 <= j < k ==> name !in TableAt(sc, j)
  }

  lemma FreeInside(tab: map<string, nat>, parent: Scope, name: string, k: nat)
    requires k <= Tables(parent)
    ensures Undeclared(Inner(tab, parent), name, k + 1) <==> name !in tab && Undeclared(parent, name, k)
  {
    var sc := Inner(tab, parent);
    assert forall j :: 0 <= j < k ==> TableAt(sc, j + 1) == TableAt(parent, j);
    assert forall j :: 0 < j <= k ==> TableAt(sc, j) == TableAt(parent, j - 1);
    if Undeclared(sc, name, k + 1) {
      assert TableAt(sc, 0) == tab;
      forall j | 0 <= j < k
        ensures name !in TableAt(parent, j)
      {
        assert name !in TableAt(sc, j + 1);
      }
    }
  }

  /** A name denotes the entry of the first table, counted outwards, that declares it. */
  lemma {:induction false} InnermostWins(sc: Scope, name: string, k: nat)
    requires k < Tables(sc) && name in TableAt(sc, k) && Undeclared(sc, name, k)
    ensures Lookup(sc, name) == Local(TableAt(sc, k)[name])
    decreases sc
  {
    if k > 0 {
      FreeInside(sc.symtab, sc.parent, name, k - 1);
      InnermostWins(sc.parent, name, k - 1);
    }
  }

  /** It denotes a global exactly when only the outermost table has it, and nothing exactly when
      no table has it. */
  lemma {:induction false} OnlyThenGlobal(sc: Scope, name: string)
    ensures Lookup(sc, name).Global? <==> Undeclared(sc, name, Tables(sc)) && name in Outermost(sc)
    ensures Lookup(sc, name).Missing? <==> Undeclared(sc, name, Tables(sc)) && name !in Outermost(sc)
    decreases sc
  {
    if sc.Inner? {
      FreeInside(sc.symtab, sc.parent, name, Tables(sc.parent));
      OnlyThenGlobal(sc.parent, name);
    }
  }

  /** Declaring writes the entry of the first table that has the name, and no other entry of any
      table. */
  lemma {:induction false} DeclaresInnermost(sc: Scope, name: string, n: nat, k: nat)
    requires k < Tables(sc) && name in TableAt(sc, k) && Undeclared(sc, name, k)
    ensures
      var after := SetLocal(sc, name, n);
      && Tables(after) == Tables(sc) && Outermost(after) == Outermost(sc)
      && forall j :: 0 <= j < Tables(sc) ==>
           TableAt(after, j) == if j == k then TableAt(sc, k)[name := n] else TableAt(sc, j)
    decreases sc
  {
    var after := SetLocal(sc, name, n);
    if k > 0 {
      FreeInside(sc.symtab, sc.parent, name, k - 1);
      DeclaresInnermost(sc.parent, name, n, k - 1);
      forall j | 0 < j < Tables(sc)
        ensures TableAt(after, j) == if j == k then TableAt(sc, k)[name := n] else TableAt(sc, j)
      {
        assert TableAt(after, j) == TableAt(after.parent, j - 1);
      }
    } else {
      assert forall j :: 0 < j < Tables(sc) ==> TableAt(after, j) == TableAt(sc.parent, j - 1);
    }
  }

  // ----- hiding -----

  /** Blocks opened inside `sc`, the first of `tabs` innermost. */
  function Within(tabs: seq<map<string, nat>>, sc: Scope): Scope {
    if tabs == [] then sc else Inner(tabs[0], Within(tabs[1..], sc))
  }

  lemma NextTable(tab: map<string, nat>, parent: Scope, j: nat)
    requires j < Tables(parent)
    ensures TableAt(Inner(tab, parent), j + 1) == TableAt(parent, j)
  {
  }

  /** The tables of `sc` are those of `tabs` and then those of `outer`. */
  ghost predicate Stacked(sc: Scope, tabs: seq<map<string, nat>>, outer: Scope) {
    && Tables(sc) == |tabs| + Tables(outer)
    && (forall j :: 0 <= j < |tabs| ==> TableAt(sc, j) == tabs[j])
    && (forall j :: |tabs| <= j < |tabs| + Tables(outer) ==> TableAt(sc, j) == TableAt(outer, j - |tabs|))
  }

  lemma StackedMore(tab: map<string, nat>, sc: Scope, tabs: seq<map<string, nat>>, outer: Scope)
    requires Stacked(sc, tabs, outer)
    ensures Stacked(Inner(tab, sc), [tab] + tabs, outer)
  {
    var all := Inner(tab, sc);
    FirstTable(tab, sc);
    assert Tables(all) == 1 + Tables(sc);
    hide TableAt, Tables;
    forall j | 0 < j < 1 + |tabs|
      ensures TableAt(all, j) == ([tab] + tabs)[j]
    {
      NextTable(tab, sc, j - 1);
    }
    forall j | 1 + |tabs| <= j < 1 + |tabs| + Tables(outer)
      ensures TableAt(all, j) == TableAt(outer, j - 1 - |tabs|)
    {
      NextTable(tab, sc, j - 1);
    }
  }

  lemma {:induction false} WithinTables(tabs: seq<map<string, nat>>, sc: Scope)
    ensures Stacked(Within(tabs, sc), tabs, sc)
    decreases |tabs|
  {
    if tabs != [] {
      hide Stacked;
      WithinTables(tabs[1..], sc);
      StackedMore(tabs[0], Within(tabs[1..], sc), tabs[1..], sc);
      assert [tabs[0]] + tabs[1..] == tabs;
    }
  }

  lemma FirstTable(tab: map<string, nat>, parent: Scope)
    ensures TableAt(Inner(tab, parent), 0) == tab
  {
  }

  lemma {:induction false} ParamNumber(params: seq<string>, i: nat)
    requires Distinct(params) && i < |params|
    ensures params[i] in S.ParamTable(params) && S.ParamTable(params)[params[i]] == i
    ensures params[i] in L.ParamTemps(params) && L.ParamTemps(params)[params[i]] == i + 1
    decreases |params|
  {
    var n := |params| - 1;
    if i < n {
      ParamNumber(params[..n], i);
      assert params[..n][i] == params[i] != params[n];
    }
  }

  /** In every block of a function that does not declare the name again, a parameter denotes its own
      storage, whatever the globals are: cell i in the source, temp i + 1 in the lowered code. */
  lemma ParameterHidesGlobals(p: Program, f: Function, i: nat, tabs: seq<map<string, nat>>)
    requires Distinct(f.params) && i < |f.params| && forall t :: t in tabs ==> f.params[i] !in t
    ensures Lookup(Within(tabs, S.FirstScope(p, f)), f.params[i]) == Local(i)
    ensures Lookup(Within(tabs, L.FirstContext(f, p.globals.Keys).scope), f.params[i]) == Local(i + 1)
  {
    hide S.ParamTable, L.ParamTemps, L.LabelTable;
    ParamNumber(f.params, i);
    var name := f.params[i];
    var src, low := S.FirstScope(p, f), L.FirstContext(f, p.globals.Keys).scope;
    WithinTables(tabs, src);
    WithinTables(tabs, low);
    assert TableAt(src, 0) == map[] && TableAt(src, 1) == S.ParamTable(f.params);
    assert TableAt(low, 0) == L.ParamTemps(f.params);
    InnermostWins(Within(tabs, src), name, |tabs| + 1);
    InnermostWins(Within(tabs, low), name, |tabs|);
  }

  /** Behind `auto x`, and in every block opened there that does not declare x again, x denotes that
      declaration, whatever the enclosing blocks, the parameters and the globals declare. */
  lemma AutoHidesOuter(fr: S.Frame, x: string, size: nat, k: nat, tabs: seq<map<string, nat>>)
    requires fr.scope.Inner? && forall t :: t in tabs ==> x !in t
    ensures Lookup(Within(tabs, S.After(fr, Auto(x, size), k).scope), x) == Local(k)
  {
    var sc := S.After(fr, Auto(x, size), k).scope;
    WithinTables(tabs, sc);
    assert TableAt(sc, 0) == fr.scope.symtab[x := k];
    InnermostWins(Within(tabs, sc), x, |tabs|);
  }
}
