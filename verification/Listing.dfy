/** Where things stand in the listing. */
module Listings {
  import opened Words
  import opened X86
  import opened Codegen
  import I = Ir

  predicate DistinctNames(fns: seq<I.Fn>) {
    forall i, j :: 0 <= i < j < |fns| ==> fns[i].name != fns[j].name
  }

  /** The position of function i. */
  function Start(fns: seq<I.Fn>, i: nat): nat
    requires i <= |fns|
  {
    |Listing(fns, i)|
  }

  /** The position of instruction p of function i. */
  function Place(fns: seq<I.Fn>, i: nat, p: nat): nat
    requires i < |fns| && p <= |fns[i].code|
  {
    Start(fns, i) + |Entry(fns[i])| + |Expand(fns[i], p)|
  }

  lemma TakeSum(a: seq<Item>, z: seq<Item>, k: nat)
    requires k <= |a|
    ensures (a + z)[..k] == a[..k]
  {
  }

  lemma {:induction false} ListingPrefix(fns: seq<I.Fn>, i: nat, n: nat)
    requires i <= n <= |fns|
    ensures |Listing(fns, i)| <= |Listing(fns, n)|
    ensures Listing(fns, n)[..|Listing(fns, i)|] == Listing(fns, i)
    decreases n
  {
    hide AsmFunction;
    if i < n {
      ListingPrefix(fns, i, n - 1);
      TakeSum(Listing(fns, n - 1), AsmFunction(fns[n - 1]), |Listing(fns, i)|);
    }
  }

  lemma {:induction false} ExpandPrefix(fn: I.Fn, p: nat, n: nat)
    requires p <= n <= |fn.code|
    ensures |Expand(fn, p)| <= |Expand(fn, n)|
    ensures Expand(fn, n)[..|Expand(fn, p)|] == Expand(fn, p)
    decreases n
  {
    hide AsmInstr;
    if p < n {
      ExpandPrefix(fn, p, n - 1);
      TakeSum(Expand(fn, n - 1), AsmInstr(fn.name, fn.code[n - 1], I.Allocs(fn.code[..n - 1]), TopTemp(fn)),
              |Expand(fn, p)|);
    }
  }

  lemma FunctionAt(fns: seq<I.Fn>, i: nat)
    requires i < |fns|
    ensures TextAt(Text(fns), Start(fns, i), AsmFunction(fns[i]))
  {
    hide AsmFunction;
    ListingPrefix(fns, i + 1, |fns|);
    var all, part := Text(fns), Listing(fns, i + 1);
    assert part == Listing(fns, i) + AsmFunction(fns[i]);
    assert all[..|part|] == part;
  }

  lemma EntryAt(fns: seq<I.Fn>, i: nat)
    requires i < |fns|
    ensures TextAt(Text(fns), Start(fns, i), Entry(fns[i]))
  {
    hide Entry, Expand;
    FunctionAt(fns, i);
    AtSplit(Text(fns), Start(fns, i), Entry(fns[i]), Expand(fns[i], |fns[i].code|));
  }

  /** Instruction p of function i stands at its place, and instruction p + 1 behind it. */
  lemma InstrAt(fns: seq<I.Fn>, i: nat, p: nat)
    requires i < |fns| && p < |fns[i].code|
    ensures
      var fn := fns[i];
      var code := AsmInstr(fn.name, fn.code[p], I.Allocs(fn.code[..p]), TopTemp(fn));
      && TextAt(Text(fns), Place(fns, i, p), code)
      && Place(fns, i, p + 1) == Place(fns, i, p) + |code|
  {
    hide Entry, AsmInstr, TextAt;
    var fn := fns[i];
    FunctionAt(fns, i);
    var n := |fn.code|;
    AtSplit(Text(fns), Start(fns, i), Entry(fn), Expand(fn, n));
    ExpandPrefix(fn, p + 1, n);
    var x := Expand(fn, p + 1);
    assert Expand(fn, n) == x + Expand(fn, n)[|x|..];
    AtSplit(Text(fns), Start(fns, i) + |Entry(fn)|, x, Expand(fn, n)[|x|..]);
    AtSplit(Text(fns), Start(fns, i) + |Entry(fn)|, Expand(fn, p),
            AsmInstr(fn.name, fn.code[p], I.Allocs(fn.code[..p]), TopTemp(fn)));
  }

  // ----- labels -----

  predicate NoLabels(code: seq<Item>) {
    forall x :: x in code ==> !x.Global? && !x.Local?
  }

  lemma NoLabelsSum(a: seq<Item>, z: seq<Item>)
    requires NoLabels(a) && NoLabels(z)
    ensures NoLabels(a + z)
  {
  }

  lemma {:induction false} PushesNoLabels(args: seq<nat>, i: nat)
    requires i <= |args|
    ensures NoLabels(Pushes(args, i))
  {
    if i > 6 {
      PushesNoLabels(args, i - 1);
      NoLabelsSum([Ld(RAX, args[i - 1]), Push(RAX)], Pushes(args, i - 1));
    }
  }

  lemma {:induction false} LoadsNoLabels(args: seq<nat>, i: nat)
    requires i <= |args|
    ensures NoLabels(Loads(args, i))
  {
    if i > 0 {
      LoadsNoLabels(args, i - 1);
      NoLabelsSum(Loads(args, i - 1), [Ld(ArgReg(i - 1), args[i - 1])]);
    }
  }

  lemma CallNoLabels(d: nat, name: string, args: seq<nat>)
    ensures NoLabels(AsmCall(d, name, args))
  {
    PushesNoLabels(args, |args|);
    LoadsNoLabels(args, RegArgs(|args|));
    var a := if Pad(|args|) == 1 then [SubRsp(8)] else [];
    NoLabelsSum(a, Pushes(args, |args|));
    NoLabelsSum(a + Pushes(args, |args|), Loads(args, RegArgs(|args|)));
    NoLabelsSum(a + Pushes(args, |args|) + Loads(args, RegArgs(|args|)), [XorEax]);
    assert NoLabels([Item.Call(name)]);
    NoLabelsSum(BeforeCall(args), [Item.Call(name)]);
    assert NoLabels(AfterCall(|args|, d));
    NoLabelsSum(BeforeCall(args) + [Item.Call(name)], AfterCall(|args|, d));
  }

  lemma InstrLabels(f: string, i: I.Instr, k: nat, maxT: nat)
    ensures i.Label? ==> AsmInstr(f, i, k, maxT) == [Local(f, i.id)]
    ensures !i.Label? ==> NoLabels(AsmInstr(f, i, k, maxT))
  {
    if i.Call? {
      CallNoLabels(i.dest, i.name, i.args);
    }
  }

  /** The labels in an expansion are those of the instructions. */
  lemma {:induction false} ExpandLabels(fn: I.Fn, n: nat, x: Item)
    requires n <= |fn.code| && x in Expand(fn, n)
    ensures !x.Global?
    ensures x.Local? ==> x.fn == fn.name && exists j :: 0 <= j < n && fn.code[j] == I.Label(x.id)
  {
    hide AsmInstr;
    InstrLabels(fn.name, fn.code[n - 1], I.Allocs(fn.code[..n - 1]), TopTemp(fn));
    if x in Expand(fn, n - 1) {
      ExpandLabels(fn, n - 1, x);
    } else if x.Local? {
      assert fn.code[n - 1] == I.Label(x.id);
    }
  }

  lemma {:induction false} SpillsNoLabels(i: nat)
    ensures NoLabels(Spills(i))
  {
    if i > 0 {
      SpillsNoLabels(i - 1);
    }
  }

  lemma EntryLabels(fn: I.Fn)
    ensures |Entry(fn)| > 0 && Entry(fn)[0] == Global(fn.name)
    ensures NoLabels(Entry(fn)[1..])
  {
    hide FrameSize;
    SpillsNoLabels(fn.params);
    var mid := [Push(RBP), MovReg(RBP, RSP)];
    var sub := if FrameSize(fn) != 0 then [SubRsp(FrameSize(fn))] else [];
    assert Entry(fn)[1..] == mid + sub + Spills(fn.params);
  }

  lemma FunctionLabels(fn: I.Fn, x: Item)
    requires x in AsmFunction(fn)
    ensures x.Global? ==> x == Global(fn.name)
    ensures x.Local? ==> x.fn == fn.name
  {
    hide Entry, Expand;
    EntryLabels(fn);
    if x in Entry(fn) {
      var j :| 0 <= j < |Entry(fn)| && Entry(fn)[j] == x;
      if j > 0 {
        assert Entry(fn)[1..][j - 1] == x;
      }
    } else {
      ExpandLabels(fn, |fn.code|, x);
    }
  }

  lemma {:induction false} ListingLabels(fns: seq<I.Fn>, n: nat, x: Item)
    requires n <= |fns| && x in Listing(fns, n)
    ensures x.Global? ==> exists j :: 0 <= j < n && fns[j].name == x.name
    ensures x.Local? ==> exists j :: 0 <= j < n && fns[j].name == x.fn
  {
    hide AsmFunction;
    if x in Listing(fns, n - 1) {
      ListingLabels(fns, n - 1, x);
    } else {
      FunctionLabels(fns[n - 1], x);
    }
  }

  lemma FindIs(text: seq<Item>, i: nat, x: Item)
    requires i < |text| && text[i] == x && forall j :: 0 <= j < i ==> text[j] != x
    ensures FindItem(text, x) == i
  {
    var r := FindItem(text, x);
  }

  lemma FindNone(text: seq<Item>, x: Item)
    requires forall j :: 0 <= j < |text| ==> text[j] != x
    ensures FindItem(text, x) == |text|
  {
    var r := FindItem(text, x);
  }

  lemma PrefixOf(fns: seq<I.Fn>, i: nat, j: nat)
    requires i <= |fns| && j < Start(fns, i)
    ensures j < |Text(fns)| && Text(fns)[j] in Listing(fns, i)
  {
    hide Listing;
    ListingPrefix(fns, i, |fns|);
    assert Text(fns)[..Start(fns, i)][j] == Text(fns)[j];
  }

  /** A call finds the function it names: the first one of that name. */
  lemma FindGlobal(fns: seq<I.Fn>, name: string)
    ensures
      var i := I.FindFn(fns, name);
      FindItem(Text(fns), Global(name)) == if i < 0 then |Text(fns)| else Start(fns, i)
  {
    hide Listing, Entry, Expand;
    var i := I.FindFn(fns, name);
    var x := Global(name);
    if i >= 0 {
      EntryAt(fns, i);
      EntryLabels(fns[i]);
      AtIndex(Text(fns), Start(fns, i), Entry(fns[i]), 0);
      forall j | 0 <= j < Start(fns, i)
        ensures Text(fns)[j] != x
      {
        PrefixOf(fns, i, j);
        if Text(fns)[j] == x {
          ListingLabels(fns, i, x);
        }
      }
      FindIs(Text(fns), Start(fns, i), x);
    } else {
      forall j | 0 <= j < |Text(fns)|
        ensures Text(fns)[j] != x
      {
        ListingLabels(fns, |fns|, Text(fns)[j]);
      }
      FindNone(Text(fns), x);
    }
  }

  /** A jump finds its label: the one of the same function. */
  lemma FindLocal(fns: seq<I.Fn>, i: nat, id: nat)
    requires DistinctNames(fns) && i < |fns|
    requires I.FindLabel(fns[i].code, id) < |fns[i].code|
    ensures FindItem(Text(fns), Local(fns[i].name, id)) == Place(fns, i, I.FindLabel(fns[i].code, id))
    ensures Place(fns, i, I.FindLabel(fns[i].code, id)) < |Text(fns)|
  {
    hide Listing, Entry, Expand;
    var fn := fns[i];
    var p := I.FindLabel(fn.code, id);
    var x := Local(fn.name, id);
    InstrAt(fns, i, p);
    AtIndex(Text(fns), Place(fns, i, p), [x], 0);
    forall j | 0 <= j < Place(fns, i, p)
      ensures Text(fns)[j] != x
    {
      if j < Start(fns, i) {
        PrefixOf(fns, i, j);
        if Text(fns)[j] == x {
          ListingLabels(fns, i, x);
        }
      } else {
        InFunction(fns, i, p, j);
        if Text(fns)[j] == x {
          Elsewhere(fn, p, id, x);
        }
      }
    }
    FindIs(Text(fns), Place(fns, i, p), x);
  }

  lemma InFunction(fns: seq<I.Fn>, i: nat, p: nat, j: nat)
    requires i < |fns| && p <= |fns[i].code| && Start(fns, i) <= j < Place(fns, i, p)
    ensures j < |Text(fns)|
    ensures Text(fns)[j] in Entry(fns[i]) || Text(fns)[j] in Expand(fns[i], p)
  {
    hide Listing, Entry, Expand;
    var fn := fns[i];
    FunctionAt(fns, i);
    ExpandPrefix(fn, p, |fn.code|);
    var k := j - Start(fns, i);
    AtIndex(Text(fns), Start(fns, i), AsmFunction(fn), k);
    if k >= |Entry(fn)| {
      assert AsmFunction(fn)[k] == Expand(fn, |fn.code|)[k - |Entry(fn)|];
      assert Expand(fn, |fn.code|)[..|Expand(fn, p)|][k - |Entry(fn)|] == Expand(fn, p)[k - |Entry(fn)|];
    }
  }

  /** Before the first definition of a label, the label does not occur. */
  lemma Elsewhere(fn: I.Fn, p: nat, id: nat, x: Item)
    requires x == Local(fn.name, id) && p == I.FindLabel(fn.code, id)
    ensures x !in Entry(fn) && x !in Expand(fn, p)
  {
    hide Entry, Expand;
    EntryLabels(fn);
    forall j | 0 <= j < |Entry(fn)|
      ensures Entry(fn)[j] != x
    {
      if j > 0 {
        assert Entry(fn)[1..][j - 1] == Entry(fn)[j];
      }
    }
    forall y | y in Expand(fn, p)
      ensures y != x
    {
      ExpandLabels(fn, p, y);
    }
  }
}
