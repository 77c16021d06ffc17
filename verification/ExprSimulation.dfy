/** Lowering preserves meaning: the code of an expression computes what it means. */
module ExprSimulation {
  import opened Words
  import opened Ast
  import opened Scopes
  import opened Ir
  import opened Lowering
  import opened Placement
  import Tok = Tokens
  import S = Source

  /** Running the code of function `i` from its first instruction does what entering the
      function means. */
  ghost predicate Entering(p: Program, m: Machine, i: nat, base: Word, args: seq<Word>, rest: Stack,
                           mem: Memory, tr: seq<Event>, fuel: nat)
    requires i < |p.fns| && i < |m.fns|
  {
    var s := Entered(m, m.fns[i], base, args, rest, mem, tr);
    match S.Enter(p, m.w, p.fns[i], base, args, mem, tr, fuel)
    case Ok(v, mem1, tr1) => Reaches(m, s, Resume(rest, v, mem1, tr1), 0)
    case Timeout(tr1) => Lasts(m, s, tr1, fuel)
    case Fail(why, tr1) => Reaches(m, s, Faulted(why, tr1), 0)
  }

  /** The induction hypothesis: calls that run on less fuel. */
  ghost predicate Calls(p: Program, m: Machine, fuel: nat) {
    forall i: nat, base: Word, args: seq<Word>, rest: Stack, mem: Memory, tr: seq<Event>, n: nat ::
      n < fuel && i < |p.fns| && i < |m.fns| && |args| == |p.fns[i].params| ==>
        Entering(p, m, i, base, args, rest, mem, tr, n)
  }

  ghost predicate Starts(p: Program, m: Machine, sc: Scope, fr: S.Frame, D: seq<nat>,
                         low: Low, c: nat, act: Act)
  {
    low.Low? && Before(p, m, sc, fr, D, low.code, c, low.temps, act)
  }

  /** The run of the code answers `r`: the same value in the result temp, the same memory and
      the same calls, the same fault, or a run as long as the fuel. */
  ghost predicate After(m: Machine, low: Low, r: S.Result, c: nat, act: Act, rest: Stack,
                        mem: Memory, tr: seq<Event>, fuel: nat, T: map<nat, Word>)
  {
    && low.Low?
    && Comes(m, Here(act, rest, mem, tr), act, rest, |low.code|, T, r, fuel)
    && (r.Ok? ==> Agree(act.temps, T, c, low.temps) && low.out in T && T[low.out] == r.value)
  }

  lemma {:induction false} ExprSim(p: Program, m: Machine, sc: Scope, fr: S.Frame, D: seq<nat>,
      e: Expr, c: nat, act: Act, rest: Stack, mem: Memory, tr: seq<Event>, fuel: nat)
    returns (T: map<nat, Word>)
    requires Calls(p, m, fuel)
    requires Starts(p, m, sc, fr, D, LowerExpr(e, sc, c), c, act)
    ensures After(m, LowerExpr(e, sc, c), S.Eval(p, m.w, fr, e, mem, tr, fuel),
                  c, act, rest, mem, tr, fuel, T)
    decreases e, 1
  {
    hide Reaches, Lasts, Run, Step, At, Agree, Before, Calls, S.EvalAtom, S.EvalDeref, S.EvalNeg, S.EvalNot, S.Bump,
      S.EvalAssign, S.EvalBinary, S.EvalCall, S.EvalAddress,
      LowerAtom, LowerDeref, LowerNeg, LowerNot, LowerBump, LowerAssign, LowerBinary, LowerCall, LowerAddressOf;
    match e
    case Atom(kind, value, n) => T := AtomSim(p, m, sc, fr, D, kind, value, n, c, act, rest, mem, tr, fuel);
    case Unary(op, x) =>
      match op {
        case BitAnd => T := AddressOfSim(p, m, sc, fr, D, x, c, act, rest, mem, tr, fuel);
        case Mul => T := DerefSim(p, m, sc, fr, D, x, c, act, rest, mem, tr, fuel);
        case Sub => T := NegSim(p, m, sc, fr, D, x, c, act, rest, mem, tr, fuel);
        case Not => T := NotSim(p, m, sc, fr, D, x, c, act, rest, mem, tr, fuel);
        case Inc => T := BumpSim(p, m, sc, fr, D, x, true, c, act, rest, mem, tr, fuel);
        case Dec => T := BumpSim(p, m, sc, fr, D, x, false, c, act, rest, mem, tr, fuel);
      }
    case Binary(l, op, r) =>
      if op == Tok.Assign {
        T := AssignSim(p, m, sc, fr, D, l, r, c, act, rest, mem, tr, fuel);
      } else {
        T := BinarySim(p, m, sc, fr, D, l, op, r, c, act, rest, mem, tr, fuel);
      }
    case FunctionCall(name, args) =>
      T := CallSim(p, m, sc, fr, D, name, args, c, act, rest, mem, tr, fuel);
  }

  lemma {:induction false} AtomSim(p: Program, m: Machine, sc: Scope, fr: S.Frame, D: seq<nat>,
      kind: Tok.Kind, value: string, n: nat, c: nat, act: Act, rest: Stack, mem: Memory, tr: seq<Event>, fuel: nat)
    returns (T: map<nat, Word>)
    requires Starts(p, m, sc, fr, D, LowerAtom(kind, value, n, sc, c), c, act)
    ensures After(m, LowerAtom(kind, value, n, sc, c), S.EvalAtom(m.w, fr, kind, value, n, mem, tr),
                  c, act, rest, mem, tr, fuel, T)
  {
    hide Reaches, Lasts, Run, Step, At, Agree, Before, Calls, Compiled, LowerVar, S.VarAddress, Fetch, LoadLv;
    T := act.temps;
    var s := Here(act, rest, mem, tr);
    ReachesSelf(m, s);
    AgreeSelf(T, c, c);
    AtIndex(act.fn.code, act.pc, LowerAtom(kind, value, n, sc, c).code, 0) by {
      Placed(p, m, sc, fr, D, LowerAtom(kind, value, n, sc, c).code, c, c + 1, act);
    }
    Stepped(m, s, s, 0);
    if kind == Tok.IntLit {
      ConstSim(m, c + 1, Wrap(n), act, rest, mem, tr);
      AgreeSet(T, T, c, c, c + 1, Wrap(n));
      T := T[c + 1 := Wrap(n)];
    } else if kind == Tok.StrLit {
      DataSim(m, c + 1, n, act, rest, mem, tr);
      AgreeSet(T, T, c, c, c + 1, m.w.lay.data(n));
      T := T[c + 1 := m.w.lay.data(n)];
    } else {
      var lv := LowerVar(sc, value, c).out;
      VarSim(p, m, sc, fr, D, value, LowerAtom(kind, value, n, sc, c).code, c, c + 1, act, mem, tr);
      match S.VarAddress(m.w, fr, value) {
        case Bad(why) =>
          LoadSim(m, lv, c + 1, S.Fail(Unset, tr), act, rest, mem, tr);
        case Got(a) =>
          LoadSim(m, lv, c + 1, S.Ok(a, mem, tr), act, rest, mem, tr);
          match Fetch(mem, a) {
            case Bad(why) =>
            case Got(v) =>
              AgreeSet(T, T, c, c, c + 1, v);
              T := T[c + 1 := v];
          }
      }
    }
  }

  lemma AgreeSelf(T: map<nat, Word>, c: nat, d: nat)
    ensures Agree(T, T, c, d)
  {
  }

  lemma Placed(p: Program, m: Machine, sc: Scope, fr: S.Frame, D: seq<nat>, code: seq<Instr>, c: nat,
               d: nat, act: Act)
    requires Before(p, m, sc, fr, D, code, c, d, act)
    ensures At(act.fn.code, act.pc, code)
  {
    hide At, ScopeOK, StorageOK, Compiled, Apart;
  }

  /** A variable is found in the same cell on both sides. */
  lemma VarSim(p: Program, m: Machine, sc: Scope, fr: S.Frame, D: seq<nat>, name: string,
               code: seq<Instr>, c: nat, d: nat, act: Act, mem: Memory, tr: seq<Event>)
    requires Before(p, m, sc, fr, D, code, c, d, act)
    requires LowerVar(sc, name, c).LowLv?
    ensures
      var lv := LowerVar(sc, name, c).out;
      && (match S.VarAddress(m.w, fr, name)
          case Got(a) => Denotes(m.w, lv, act.temps, a)
          case Bad(why) => Hollow(lv, act.temps, S.Fail(why, tr), tr))
      && (lv.AtTemp? ==> exists k :: 0 <= k < |D| && D[k] == lv.t)
  {
    hide At, ScopeOK, Compiled, Apart, Lookup;
    LookupOK(sc, fr.scope, D, name);
  }

  lemma DerefDef(p: Program, w: World, sc: Scope, fr: S.Frame, x: Expr, c: nat, mem: Memory,
              tr: seq<Event>, fuel: nat)
    requires LowerDeref(x, sc, c).Low?
    ensures
      var lx := LowerExpr(x, sc, c);
      lx.Low? && LowerDeref(x, sc, c) == Low(lx.code + [Instr.Load(lx.temps + 1, lx.out)], lx.temps + 1, lx.temps + 1)
    ensures
      var q := S.Eval(p, w, fr, x, mem, tr, fuel);
      S.EvalDeref(p, w, fr, x, mem, tr, fuel) == if q.Ok? then S.LoadAt(q.value, q.mem, q.trace) else q
  {
    hide S.Eval, LowerExpr, S.LoadAt;
  }

  lemma {:induction false} DerefSim(p: Program, m: Machine, sc: Scope, fr: S.Frame, D: seq<nat>,
      x: Expr, c: nat, act: Act, rest: Stack, mem: Memory, tr: seq<Event>, fuel: nat)
    returns (T: map<nat, Word>)
    requires Calls(p, m, fuel)
    requires Starts(p, m, sc, fr, D, LowerDeref(x, sc, c), c, act)
    ensures After(m, LowerDeref(x, sc, c), S.EvalDeref(p, m.w, fr, x, mem, tr, fuel),
                  c, act, rest, mem, tr, fuel, T)
    decreases x, 2
  {
    hide Reaches, Lasts, Run, Step, At, Agree, Before, Calls, S.Eval, LowerExpr, Fetch, S.EvalDeref, LowerDeref;
    DerefDef(p, m.w, sc, fr, x, c, mem, tr, fuel);
    T := act.temps;
    var s := Here(act, rest, mem, tr);
    var lx := LowerExpr(x, sc, c);
    var tail := [Instr.Load(lx.temps + 1, lx.out)];
    BeforeFirst(p, m, sc, fr, D, lx.code, tail, c, lx.temps, lx.temps + 1, act);
    AtIndex(act.fn.code, act.pc + |lx.code|, tail, 0);
    var U := ExprSim(p, m, sc, fr, D, x, c, act, rest, mem, tr, fuel);
    var r := S.Eval(p, m.w, fr, x, mem, tr, fuel);
    if r.Ok? {
      var a1 := There(act, |lx.code|, U);
      Stepped(m, s, Here(a1, rest, r.mem, r.trace), 0);
      LoadSim(m, AtTemp(lx.out), lx.temps + 1, r, a1, rest, r.mem, r.trace);
      assert Denotes(m.w, AtTemp(lx.out), U, r.value);
      match Fetch(r.mem, r.value) {
        case Bad(why) =>
        case Got(v) =>
          AgreeSet(act.temps, U, c, lx.temps, lx.temps + 1, v);
          T := U[lx.temps + 1 := v];
      }
    }
  }

  lemma NegDef(p: Program, w: World, sc: Scope, fr: S.Frame, x: Expr, c: nat, mem: Memory,
              tr: seq<Event>, fuel: nat)
    requires LowerNeg(x, sc, c).Low?
    ensures
      var lx := LowerExpr(x, sc, c);
      lx.Low? && LowerNeg(x, sc, c) == Low(lx.code + [Instr.Neg(lx.temps + 1, lx.out)], lx.temps + 1, lx.temps + 1)
    ensures
      var q := S.Eval(p, w, fr, x, mem, tr, fuel);
      S.EvalNeg(p, w, fr, x, mem, tr, fuel) == if q.Ok? then S.Ok(Negate(q.value), q.mem, q.trace) else q
  {
    hide S.Eval, LowerExpr;
  }

  lemma {:induction false} NegSim(p: Program, m: Machine, sc: Scope, fr: S.Frame, D: seq<nat>,
      x: Expr, c: nat, act: Act, rest: Stack, mem: Memory, tr: seq<Event>, fuel: nat)
    returns (T: map<nat, Word>)
    requires Calls(p, m, fuel)
    requires Starts(p, m, sc, fr, D, LowerNeg(x, sc, c), c, act)
    ensures After(m, LowerNeg(x, sc, c), S.EvalNeg(p, m.w, fr, x, mem, tr, fuel),
                  c, act, rest, mem, tr, fuel, T)
    decreases x, 2
  {
    hide Reaches, Lasts, Run, Step, At, Agree, Before, Calls, S.Eval, LowerExpr, Fetch, S.EvalNeg, LowerNeg;
    NegDef(p, m.w, sc, fr, x, c, mem, tr, fuel);
    T := act.temps;
    var s := Here(act, rest, mem, tr);
    var lx := LowerExpr(x, sc, c);
    var tail := [Instr.Neg(lx.temps + 1, lx.out)];
    BeforeFirst(p, m, sc, fr, D, lx.code, tail, c, lx.temps, lx.temps + 1, act);
    AtIndex(act.fn.code, act.pc + |lx.code|, tail, 0);
    var U := ExprSim(p, m, sc, fr, D, x, c, act, rest, mem, tr, fuel);
    var r := S.Eval(p, m.w, fr, x, mem, tr, fuel);
    if r.Ok? {
      var a1 := There(act, |lx.code|, U);
      Stepped(m, s, Here(a1, rest, r.mem, r.trace), 0);
      NegateSim(m, lx.temps + 1, lx.out, a1, rest, r.mem, r.trace);
      AgreeSet(act.temps, U, c, lx.temps, lx.temps + 1, Negate(r.value));
      T := U[lx.temps + 1 := Negate(r.value)];
    }
  }

  lemma NotDef(p: Program, w: World, sc: Scope, fr: S.Frame, x: Expr, c: nat, mem: Memory,
              tr: seq<Event>, fuel: nat)
    requires LowerNot(x, sc, c).Low?
    ensures
      var lx := LowerExpr(x, sc, c);
      lx.Low? && LowerNot(x, sc, c)
        == Low(lx.code + [Const(lx.temps + 1, 0), Bin(BinOp.Eq, lx.temps + 2, lx.out, lx.temps + 1)], lx.temps + 2,
               lx.temps + 2)
    ensures
      var q := S.Eval(p, w, fr, x, mem, tr, fuel);
      S.EvalNot(p, w, fr, x, mem, tr, fuel) == if q.Ok? then S.Ok(FromBool(q.value == 0), q.mem, q.trace) else q
  {
    hide S.Eval, LowerExpr;
  }

  lemma {:induction false} NotSim(p: Program, m: Machine, sc: Scope, fr: S.Frame, D: seq<nat>,
      x: Expr, c: nat, act: Act, rest: Stack, mem: Memory, tr: seq<Event>, fuel: nat)
    returns (T: map<nat, Word>)
    requires Calls(p, m, fuel)
    requires Starts(p, m, sc, fr, D, LowerNot(x, sc, c), c, act)
    ensures After(m, LowerNot(x, sc, c), S.EvalNot(p, m.w, fr, x, mem, tr, fuel),
                  c, act, rest, mem, tr, fuel, T)
    decreases x, 2
  {
    hide Reaches, Lasts, Run, Step, At, Agree, Before, Calls, S.Eval, LowerExpr, S.EvalNot, LowerNot;
    NotDef(p, m.w, sc, fr, x, c, mem, tr, fuel);
    T := act.temps;
    var s := Here(act, rest, mem, tr);
    var lx := LowerExpr(x, sc, c);
    var d := lx.temps;
    var tail := [Const(d + 1, 0), Bin(BinOp.Eq, d + 2, lx.out, d + 1)];
    BeforeFirst(p, m, sc, fr, D, lx.code, tail, c, d, d + 2, act);
    AtIndex(act.fn.code, act.pc + |lx.code|, tail, 0);
    AtIndex(act.fn.code, act.pc + |lx.code|, tail, 1);
    var U := ExprSim(p, m, sc, fr, D, x, c, act, rest, mem, tr, fuel);
    var r := S.Eval(p, m.w, fr, x, mem, tr, fuel);
    if r.Ok? {
      var a1 := There(act, |lx.code|, U);
      Stepped(m, s, Here(a1, rest, r.mem, r.trace), 0);
      ConstSim(m, d + 1, 0, a1, rest, r.mem, r.trace);
      var U2 := U[d + 1 := 0];
      AgreeSet(act.temps, U, c, d, d + 1, 0);
      var a2 := There(act, |lx.code| + 1, U2);
      Stepped(m, s, Here(a2, rest, r.mem, r.trace), 0);
      BinSim(m, BinOp.Eq, d + 2, lx.out, d + 1, a2, rest, r.mem, r.trace);
      T := U2[d + 2 := FromBool(r.value == 0)];
      AgreeSet(act.temps, U2, c, d + 1, d + 2, FromBool(r.value == 0));
    }
  }

  lemma {:induction false} AddressOfSim(p: Program, m: Machine, sc: Scope, fr: S.Frame, D: seq<nat>,
      x: Expr, c: nat, act: Act, rest: Stack, mem: Memory, tr: seq<Event>, fuel: nat)
    returns (T: map<nat, Word>)
    requires Calls(p, m, fuel)
    requires Starts(p, m, sc, fr, D, LowerAddressOf(x, sc, c), c, act)
    ensures After(m, LowerAddressOf(x, sc, c), S.EvalAddress(p, m.w, fr, x, mem, tr, fuel),
                  c, act, rest, mem, tr, fuel, T)
    decreases x, 2
  {
    hide Reaches, Lasts, Run, Step, At, Agree, Before, Calls, S.Eval, S.EvalAddress, LowerExpr, LowerLvalue, AddressLv;
    T := act.temps;
    var s := Here(act, rest, mem, tr);
    var lw := LowerLvalue(x, sc, c);
    var tail := [AddressLv(lw.out, lw.temps + 1)];
    BeforeFirst(p, m, sc, fr, D, lw.code, tail, c, lw.temps, lw.temps + 1, act);
    AtIndex(act.fn.code, act.pc + |lw.code|, tail, 0);
    var U := LvalueSim(p, m, sc, fr, D, x, c, act, rest, mem, tr, fuel);
    var r := S.EvalAddress(p, m.w, fr, x, mem, tr, fuel);
    var a1 := There(act, |lw.code|, U);
    if Hollow(lw.out, U, r, tr) && Reaches(m, s, Here(a1, rest, mem, tr), 0) {
      AddressSim(m, lw.out, lw.temps + 1, r, a1, rest, mem, tr);
      Stepped(m, s, Here(a1, rest, mem, tr), 0);
    } else if r.Ok? {
      AddressSim(m, lw.out, lw.temps + 1, r, a1, rest, r.mem, r.trace);
      Stepped(m, s, Here(a1, rest, r.mem, r.trace), 0);
      AgreeSet(act.temps, U, c, lw.temps, lw.temps + 1, r.value);
      T := U[lw.temps + 1 := r.value];
    }
  }

  lemma {:induction false} BumpSim(p: Program, m: Machine, sc: Scope, fr: S.Frame, D: seq<nat>,
      x: Expr, up: bool, c: nat, act: Act, rest: Stack, mem: Memory, tr: seq<Event>, fuel: nat)
    returns (T: map<nat, Word>)
    requires Calls(p, m, fuel)
    requires Starts(p, m, sc, fr, D, LowerBump(x, if up then BinOp.Add else BinOp.Sub, sc, c), c, act)
    ensures After(m, LowerBump(x, if up then BinOp.Add else BinOp.Sub, sc, c),
                  S.Bump(p, m.w, fr, x, if up then 1 else -1, mem, tr, fuel),
                  c, act, rest, mem, tr, fuel, T)
    decreases x, 2
  {
    hide Reaches, Lasts, Run, Step, At, Agree, Before, Calls, S.Eval, S.EvalAddress, LowerExpr, LowerLvalue, LoadLv,
      StoreLv, Wrap;
    T := act.temps;
    var s := Here(act, rest, mem, tr);
    var C := act.fn.code;
    var lw := LowerLvalue(x, sc, c);
    var d, lv := lw.temps, lw.out;
    var bop := if up then BinOp.Add else BinOp.Sub;
    var tail := [LoadLv(lv, d + 1), Const(d + 2, 1), Bin(bop, d + 3, d + 1, d + 2), StoreLv(lv, d + 3)];
    BeforeFirst(p, m, sc, fr, D, lw.code, tail, c, d, d + 3, act);
    AtIndex(C, act.pc + |lw.code|, tail, 0);
    var U := LvalueSim(p, m, sc, fr, D, x, c, act, rest, mem, tr, fuel);
    var r := S.EvalAddress(p, m.w, fr, x, mem, tr, fuel);
    var a1 := There(act, |lw.code|, U);
    if Hollow(lv, U, r, tr) && Reaches(m, s, Here(a1, rest, mem, tr), 0) {
      LoadSim(m, lv, d + 1, r, a1, rest, mem, tr);
      Stepped(m, s, Here(a1, rest, mem, tr), 0);
    } else if r.Ok? {
      LoadSim(m, lv, d + 1, r, a1, rest, r.mem, r.trace);
      Stepped(m, s, Here(a1, rest, r.mem, r.trace), 0);
      match Fetch(r.mem, r.value) {
        case Bad(why) =>
        case Got(v) =>
          if lv.AtTemp? && !(c < lv.t <= d) {
            var k :| 0 <= k < |D| && D[k] == lv.t;
            BeforeApart(p, m, sc, fr, D, lw.code + tail, c, d + 3, act, k);
          }
          T := BumpTail(m, lv, up, d, s, act, |lw.code|, U, v, rest, r.value, r.mem, r.trace);
          AgreeTrans(act.temps, U, T, c, d, d + 3);
      }
    }
  }

  /** The last three instructions of `++` and `--`. */
  lemma BumpTail(m: Machine, lv: LValue, up: bool, d: nat, s: State, act: Act, n: nat,
                 U: map<nat, Word>, v: Word, rest: Stack, a: Word, mem: Memory, tr: seq<Event>)
    returns (T: map<nat, Word>)
    requires At(act.fn.code, act.pc + n,
               [LoadLv(lv, d + 1), Const(d + 2, 1),
                Bin(if up then BinOp.Add else BinOp.Sub, d + 3, d + 1, d + 2), StoreLv(lv, d + 3)])
    requires Denotes(m.w, lv, U, a) && (lv.AtTemp? ==> lv.t <= d || lv.t > d + 3) && a in mem
    requires Reaches(m, s, Here(There(act, n + 1, U[d + 1 := v]), rest, mem, tr), 0)
    ensures Agree(U, T, d, d + 3)
    ensures var nv := Wrap(v + (if up then 1 else -1));
      && d + 3 in T && T[d + 3] == nv
      && Reaches(m, s, Here(There(act, n + 4, T), rest, mem[a := Is(nv)], tr), 0)
  {
    hide Step, Reaches, At, Wrap, LoadLv, StoreLv;
    var C, pc := act.fn.code, act.pc + n;
    var bop := if up then BinOp.Add else BinOp.Sub;
    var tail := [LoadLv(lv, d + 1), Const(d + 2, 1), Bin(bop, d + 3, d + 1, d + 2), StoreLv(lv, d + 3)];
    AtIndex(C, pc, tail, 1);
    AtIndex(C, pc, tail, 2);
    AtIndex(C, pc, tail, 3);
    var U2 := U[d + 1 := v];
    Stepped(m, s, Here(There(act, n + 1, U2), rest, mem, tr), 0);
    ConstSim(m, d + 2, 1, There(act, n + 1, U2), rest, mem, tr);
    var U3 := U2[d + 2 := 1];
    Stepped(m, s, Here(There(act, n + 2, U3), rest, mem, tr), 0);
    BinSim(m, bop, d + 3, d + 1, d + 2, There(act, n + 2, U3), rest, mem, tr);
    T := U3[d + 3 := Wrap(v + (if up then 1 else -1))];
    Stepped(m, s, Here(There(act, n + 3, T), rest, mem, tr), 0);
    assert Denotes(m.w, lv, T, a);
    StoreSim(m, lv, d + 3, S.Ok(a, mem, tr), There(act, n + 3, T), rest, mem, tr);
  }

  lemma AssignDef(p: Program, w: World, sc: Scope, fr: S.Frame, l: Expr, r: Expr, c: nat, mem: Memory,
                  tr: seq<Event>, fuel: nat)
    requires LowerAssign(l, r, sc, c).Low?
    ensures
      var lr := LowerExpr(r, sc, c);
      lr.Low? &&
      var lw := LowerLvalue(l, sc, lr.temps);
      lw.LowLv? &&
      LowerAssign(l, r, sc, c) == Low(lr.code + lw.code + [StoreLv(lw.out, lr.out)], lr.out, lw.temps)
    ensures
      var q := S.Eval(p, w, fr, r, mem, tr, fuel);
      S.EvalAssign(p, w, fr, l, r, mem, tr, fuel) ==
        if !q.Ok? then q
        else
          var q2 := S.EvalAddress(p, w, fr, l, q.mem, q.trace, fuel);
          if !q2.Ok? then q2 else S.StoreAt(q2.value, q.value, q2.mem, q2.trace)
  {
    hide S.Eval, S.EvalAddress, LowerExpr, LowerLvalue, S.StoreAt;
  }

  lemma {:induction false} AssignSim(p: Program, m: Machine, sc: Scope, fr: S.Frame, D: seq<nat>,
      l: Expr, r: Expr, c: nat, act: Act, rest: Stack, mem: Memory, tr: seq<Event>, fuel: nat)
    returns (T: map<nat, Word>)
    requires Calls(p, m, fuel)
    requires Starts(p, m, sc, fr, D, LowerAssign(l, r, sc, c), c, act)
    ensures After(m, LowerAssign(l, r, sc, c), S.EvalAssign(p, m.w, fr, l, r, mem, tr, fuel),
                  c, act, rest, mem, tr, fuel, T)
    decreases Binary(l, Tok.Assign, r), 0
  {
    hide Reaches, Lasts, Run, Step, At, Agree, Before, Calls, S.Eval, S.EvalAddress, LowerExpr, LowerLvalue, StoreLv,
      S.EvalAssign, LowerAssign;
    AssignDef(p, m.w, sc, fr, l, r, c, mem, tr, fuel);
    T := act.temps;
    var s := Here(act, rest, mem, tr);
    var lr := LowerExpr(r, sc, c);
    var lw := LowerLvalue(l, sc, lr.temps);
    BeforeBoth(p, m, sc, fr, D, lr.code, lw.code, StoreLv(lw.out, lr.out), c, lr.temps, lw.temps, lw.temps, act);
    var U := ExprSim(p, m, sc, fr, D, r, c, act, rest, mem, tr, fuel);
    var q := S.Eval(p, m.w, fr, r, mem, tr, fuel);
    if q.Ok? {
      var a1 := There(act, |lr.code|, U);
      var t1 := Here(a1, rest, q.mem, q.trace);
      BeforeNext(p, m, sc, fr, D, lr.code, lw.code, c, lr.temps, lw.temps, act, U);
      var U2 := LvalueSim(p, m, sc, fr, D, l, lr.temps, a1, rest, q.mem, q.trace, fuel);
      var a2 := There(a1, |lw.code|, U2);
      var q2 := S.EvalAddress(p, m.w, fr, l, q.mem, q.trace, fuel);
      if Hollow(lw.out, U2, q2, q.trace) && Reaches(m, t1, Here(a2, rest, q.mem, q.trace), 0) {
        var t2 := Here(a2, rest, q.mem, q.trace);
        AgreeKeeps(U, U2, lr.temps, lw.temps, lr.out);
        ReachesTrans(m, s, t1, t2, 0, 0);
        StoreSim(m, lw.out, lr.out, q2, a2, rest, q.mem, q.trace);
        Stepped(m, s, t2, 0);
      } else {
        Prepend(m, s, t1, a1, rest, |lw.code|, U2, q2, fuel, act, |lr.code| + |lw.code|);
        if q2.Ok? {
          AgreeKeeps(U, U2, lr.temps, lw.temps, lr.out);
          StoreSim(m, lw.out, lr.out, q2, a2, rest, q2.mem, q2.trace);
          Stepped(m, s, Here(a2, rest, q2.mem, q2.trace), 0);
          AgreeTrans(act.temps, U, U2, c, lr.temps, lw.temps);
          T := U2;
        } else {
          NotOk(m, s, act, rest, |lr.code| + |lw.code|, U2, |lr.code| + |lw.code| + 1, T, q2, fuel);
        }
      }
    } else {
      NotOk(m, s, act, rest, |lr.code|, U, |lr.code| + |lw.code| + 1, T, q, fuel);
    }
  }

  lemma BinaryDef(p: Program, w: World, sc: Scope, fr: S.Frame, l: Expr, op: Tok.Kind, r: Expr, c: nat,
                  mem: Memory, tr: seq<Event>, fuel: nat)
    requires LowerBinary(l, op, r, sc, c).Low?
    ensures
      var la := LowerExpr(l, sc, c);
      S.OperatorOf(op).Some? && la.Low? &&
      var lb := LowerExpr(r, sc, la.temps);
      lb.Low? &&
      LowerBinary(l, op, r, sc, c) ==
        Low(la.code + lb.code + [Bin(S.OperatorOf(op).value, lb.temps + 1, la.out, lb.out)],
            lb.temps + 1, lb.temps + 1)
    ensures
      S.OperatorOf(op).Some? &&
      var q := S.Eval(p, w, fr, l, mem, tr, fuel);
      S.EvalBinary(p, w, fr, l, op, r, mem, tr, fuel) ==
        if !q.Ok? then q
        else
          var q2 := S.Eval(p, w, fr, r, q.mem, q.trace, fuel);
          if !q2.Ok? then q2
          else match Apply(S.OperatorOf(op).value, q.value, q2.value)
            case Some(v) => S.Ok(v, q2.mem, q2.trace)
            case None => S.Fail(NoQuotient, q2.trace)
  {
    hide S.Eval, LowerExpr, S.OperatorOf, Apply;
  }

  lemma {:induction false} BinarySim(p: Program, m: Machine, sc: Scope, fr: S.Frame, D: seq<nat>,
      l: Expr, op: Tok.Kind, r: Expr, c: nat, act: Act, rest: Stack, mem: Memory, tr: seq<Event>, fuel: nat)
    returns (T: map<nat, Word>)
    requires Calls(p, m, fuel)
    requires Starts(p, m, sc, fr, D, LowerBinary(l, op, r, sc, c), c, act)
    ensures After(m, LowerBinary(l, op, r, sc, c), S.EvalBinary(p, m.w, fr, l, op, r, mem, tr, fuel),
                  c, act, rest, mem, tr, fuel, T)
    decreases Binary(l, op, r), 0
  {
    hide Reaches, Lasts, Run, Step, At, Agree, Before, Calls, S.Eval, LowerExpr, S.OperatorOf, Apply, S.EvalBinary,
      LowerBinary;
    BinaryDef(p, m.w, sc, fr, l, op, r, c, mem, tr, fuel);
    T := act.temps;
    var s := Here(act, rest, mem, tr);
    var la := LowerExpr(l, sc, c);
    var lb := LowerExpr(r, sc, la.temps);
    var o := S.OperatorOf(op).value;
    BeforeBoth(p, m, sc, fr, D, la.code, lb.code, Bin(o, lb.temps + 1, la.out, lb.out), c, la.temps,
               lb.temps, lb.temps + 1, act);
    var q := S.Eval(p, m.w, fr, l, mem, tr, fuel);
    var U := PairSim(p, m, sc, fr, D, l, r, op, c, act, rest, mem, tr, fuel);
    if q.Ok? {
      var q2 := S.Eval(p, m.w, fr, r, q.mem, q.trace, fuel);
      if q2.Ok? {
        var a2 := There(act, |la.code| + |lb.code|, U);
        BinSim(m, o, lb.temps + 1, la.out, lb.out, a2, rest, q2.mem, q2.trace);
        Stepped(m, s, Here(a2, rest, q2.mem, q2.trace), 0);
        match Apply(o, q.value, q2.value) {
          case None =>
          case Some(v) =>
            AgreeSet(act.temps, U, c, lb.temps, lb.temps + 1, v);
            T := U[lb.temps + 1 := v];
        }
      } else {
        NotOk(m, s, act, rest, |la.code| + |lb.code|, U, |la.code| + |lb.code| + 1, T, q2, fuel);
      }
    } else {
      NotOk(m, s, act, rest, 0, U, |la.code| + |lb.code| + 1, T, q, fuel);
    }
  }

  /** Two operands, left to right: the first value survives the second's code. */
  lemma {:induction false} PairSim(p: Program, m: Machine, sc: Scope, fr: S.Frame, D: seq<nat>,
      l: Expr, r: Expr, op: Tok.Kind, c: nat, act: Act, rest: Stack, mem: Memory, tr: seq<Event>,
      fuel: nat)
    returns (T: map<nat, Word>)
    requires Calls(p, m, fuel)
    requires LowerExpr(l, sc, c).Low?
    requires LowerExpr(r, sc, LowerExpr(l, sc, c).temps).Low?
    requires var la := LowerExpr(l, sc, c); var lb := LowerExpr(r, sc, la.temps);
      Before(p, m, sc, fr, D, la.code + lb.code, c, lb.temps, act)
    ensures
      var la := LowerExpr(l, sc, c);
      var lb := LowerExpr(r, sc, la.temps);
      var q := S.Eval(p, m.w, fr, l, mem, tr, fuel);
      var s := Here(act, rest, mem, tr);
      if !q.Ok? then Comes(m, s, act, rest, 0, T, q, fuel)
      else
        var q2 := S.Eval(p, m.w, fr, r, q.mem, q.trace, fuel);
        && Comes(m, s, act, rest, |la.code| + |lb.code|, T, q2, fuel)
        && (q2.Ok? ==> && Agree(act.temps, T, c, lb.temps)
                       && la.out in T && T[la.out] == q.value
                       && lb.out in T && T[lb.out] == q2.value)
    decreases Binary(l, op, r), 0, 0
  {
    hide Reaches, Lasts, Run, Step, At, Agree, Before, Calls, S.Eval, LowerExpr;
    var la := LowerExpr(l, sc, c);
    var lb := LowerExpr(r, sc, la.temps);
    BeforeFirst(p, m, sc, fr, D, la.code, lb.code, c, la.temps, lb.temps, act);
    var U := ExprSim(p, m, sc, fr, D, l, c, act, rest, mem, tr, fuel);
    var q := S.Eval(p, m.w, fr, l, mem, tr, fuel);
    T := U;
    if q.Ok? {
      var a1 := There(act, |la.code|, U);
      BeforeNext(p, m, sc, fr, D, la.code, lb.code, c, la.temps, lb.temps, act, U);
      T := ExprSim(p, m, sc, fr, D, r, la.temps, a1, rest, q.mem, q.trace, fuel);
      var q2 := S.Eval(p, m.w, fr, r, q.mem, q.trace, fuel);
      SecondOperand(m, la, lb, q, q2, c, act, rest, mem, tr, fuel, U, T);
    }
  }

  /** Behind the code of the first operand, the code of the second. */
  lemma SecondOperand(m: Machine, la: Low, lb: Low, q: S.Result, q2: S.Result, c: nat, act: Act, rest: Stack,
                      mem: Memory, tr: seq<Event>, fuel: nat, U: map<nat, Word>, T: map<nat, Word>)
    requires la.Low? && lb.Low? && q.Ok? && c < la.out <= la.temps && la.temps < lb.out <= lb.temps
    requires After(m, la, q, c, act, rest, mem, tr, fuel, U)
    requires After(m, lb, q2, la.temps, There(act, |la.code|, U), rest, q.mem, q.trace, fuel, T)
    ensures Comes(m, Here(act, rest, mem, tr), act, rest, |la.code| + |lb.code|, T, q2, fuel)
    ensures q2.Ok? ==> && Agree(act.temps, T, c, lb.temps)
                       && la.out in T && T[la.out] == q.value
                       && lb.out in T && T[lb.out] == q2.value
  {
    hide Reaches, Lasts, Run, Step, Agree;
    var a1 := There(act, |la.code|, U);
    Prepend(m, Here(act, rest, mem, tr), Here(a1, rest, q.mem, q.trace), a1, rest, |lb.code|, T, q2,
            fuel, act, |la.code| + |lb.code|);
    if q2.Ok? {
      AgreeKeeps(U, T, la.temps, lb.temps, la.out);
      AgreeTrans(act.temps, U, T, c, la.temps, lb.temps);
    }
  }

  /** As `ExprSim`, for an lvalue: its address is where the lvalue says, unless the lvalue is
      a variable without storage, whose use is still to come. */
  lemma {:induction false} LvalueSim(p: Program, m: Machine, sc: Scope, fr: S.Frame, D: seq<nat>,
      x: Expr, c: nat, act: Act, rest: Stack, mem: Memory, tr: seq<Event>, fuel: nat)
    returns (T: map<nat, Word>)
    requires Calls(p, m, fuel)
    requires LowerLvalue(x, sc, c).LowLv?
    requires Before(p, m, sc, fr, D, LowerLvalue(x, sc, c).code, c, LowerLvalue(x, sc, c).temps, act)
    ensures
      var low, r := LowerLvalue(x, sc, c), S.EvalAddress(p, m.w, fr, x, mem, tr, fuel);
      var s := Here(act, rest, mem, tr);
      && Agree(act.temps, T, c, low.temps)
      && (|| (Hollow(low.out, T, r, tr)
              && Reaches(m, s, Here(There(act, |low.code|, T), rest, mem, tr), 0))
          || (Comes(m, s, act, rest, |low.code|, T, r, fuel)
              && (r.Ok? ==> Denotes(m.w, low.out, T, r.value))))
      && (low.out.AtTemp? ==> c < low.out.t <= low.temps
                              || exists k :: 0 <= k < |D| && D[k] == low.out.t)
    decreases x, 1
  {
    hide Reaches, Lasts, Run, Step, At, Agree, Before, Calls, S.Eval, LowerExpr, LowerVar, S.VarAddress;
    T := act.temps;
    ReachesSelf(m, Here(act, rest, mem, tr));
    assert There(act, 0, T) == act;
    match x
    case Atom(kind, name, _) =>
      assert LowerLvalue(x, sc, c) == LowerVar(sc, name, c);
      VarSim(p, m, sc, fr, D, name, LowerLvalue(x, sc, c).code, c, c, act, mem, tr);
      AgreeSelf(T, c, c);
    case Unary(op, y) =>
      T := ExprSim(p, m, sc, fr, D, y, c, act, rest, mem, tr, fuel);
      if !S.Eval(p, m.w, fr, y, mem, tr, fuel).Ok? {
        T := act.temps;
        AgreeSelf(T, c, LowerExpr(y, sc, c).temps);
      }
  }

  ghost predicate ArgsAfter(m: Machine, low: LowArgs, r: S.Results, c: nat, act: Act,
                            rest: Stack, mem: Memory, tr: seq<Event>, fuel: nat, T: map<nat, Word>)
  {
    && low.LowArgs?
    && (match r
        case Oks(vs, mem1, tr1) =>
          && Reaches(m, Here(act, rest, mem, tr), Here(There(act, |low.code|, T), rest, mem1, tr1), 0)
          && Agree(act.temps, T, c, low.temps)
          && AllSet(T, low.out) && Values(T, low.out) == vs
        case Stops(q) =>
          !q.Ok? && Comes(m, Here(act, rest, mem, tr), act, rest, |low.code|, T, q, fuel))
  }

  /** Arguments are evaluated left to right, and every one survives the later ones. */
  lemma {:induction false} ArgsSim(p: Program, m: Machine, sc: Scope, fr: S.Frame, D: seq<nat>,
      args: Exprs, c: nat, act: Act, rest: Stack, mem: Memory, tr: seq<Event>, fuel: nat)
    returns (T: map<nat, Word>)
    requires Calls(p, m, fuel)
    requires LowerArgs(args, sc, c).LowArgs?
    requires Before(p, m, sc, fr, D, LowerArgs(args, sc, c).code, c, LowerArgs(args, sc, c).temps, act)
    ensures ArgsAfter(m, LowerArgs(args, sc, c), S.EvalArgs(p, m.w, fr, args, mem, tr, fuel),
                      c, act, rest, mem, tr, fuel, T)
    decreases args, 1
  {
    hide Reaches, Lasts, Run, Step, At, Agree, Before, Calls, S.Eval, LowerExpr;
    T := act.temps;
    var s := Here(act, rest, mem, tr);
    match args
    case NoExprs =>
      ReachesSelf(m, s);
      AgreeSelf(T, c, c);
    case MoreExprs(e, next) =>
      var le := LowerExpr(e, sc, c);
      var ln := LowerArgs(next, sc, le.temps);
      BeforeFirst(p, m, sc, fr, D, le.code, ln.code, c, le.temps, ln.temps, act);
      var U := ExprSim(p, m, sc, fr, D, e, c, act, rest, mem, tr, fuel);
      var q := S.Eval(p, m.w, fr, e, mem, tr, fuel);
      if q.Ok? {
        var a1 := There(act, |le.code|, U);
        var t1 := Here(a1, rest, q.mem, q.trace);
        BeforeNext(p, m, sc, fr, D, le.code, ln.code, c, le.temps, ln.temps, act, U);
        T := ArgsSim(p, m, sc, fr, D, next, le.temps, a1, rest, q.mem, q.trace, fuel);
        match S.EvalArgs(p, m.w, fr, next, q.mem, q.trace, fuel) {
          case Oks(vs, mem2, tr2) =>
            ReachesTrans(m, s, t1, Here(There(a1, |ln.code|, T), rest, mem2, tr2), 0, 0);
            AgreeKeeps(U, T, le.temps, ln.temps, le.out);
            AgreeTrans(act.temps, U, T, c, le.temps, ln.temps);
            ValuesCons(T, le.out, ln.out);
          case Stops(q2) =>
            Prepend(m, s, t1, a1, rest, |ln.code|, T, q2, fuel, act, |le.code| + |ln.code|);
        }
      }
  }

  lemma ValuesCons(T: map<nat, Word>, t: nat, ts: seq<nat>)
    requires t in T && AllSet(T, ts)
    ensures AllSet(T, [t] + ts)
    ensures Values(T, [t] + ts) == [T[t]] + Values(T, ts)
  {
  }

  lemma CallDef(p: Program, w: World, sc: Scope, fr: S.Frame, name: string, args: Exprs, c: nat,
                mem: Memory, tr: seq<Event>, fuel: nat)
    requires LowerCall(name, args, sc, c).Low?
    ensures
      var low := LowerArgs(args, sc, c);
      low.LowArgs? &&
      LowerCall(name, args, sc, c) ==
        Low(low.code + [Instr.Call(low.temps + 1, name, low.out)], low.temps + 1, low.temps + 1)
    ensures
      var q := S.EvalArgs(p, w, fr, args, mem, tr, fuel);
      S.EvalCall(p, w, fr, name, args, mem, tr, fuel) ==
        if q.Stops? then q.at
        else S.Invoke(p, w, fr.fn, fr.base, name, q.values, q.mem, q.trace, fuel)
  {
    hide S.EvalArgs, LowerArgs, S.Invoke;
  }

  lemma {:induction false} CallSim(p: Program, m: Machine, sc: Scope, fr: S.Frame, D: seq<nat>,
      name: string, args: Exprs, c: nat, act: Act, rest: Stack, mem: Memory, tr: seq<Event>, fuel: nat)
    returns (T: map<nat, Word>)
    requires Calls(p, m, fuel)
    requires Starts(p, m, sc, fr, D, LowerCall(name, args, sc, c), c, act)
    ensures After(m, LowerCall(name, args, sc, c), S.EvalCall(p, m.w, fr, name, args, mem, tr, fuel),
                  c, act, rest, mem, tr, fuel, T)
    decreases args, 2
  {
    hide Reaches, Lasts, Run, Step, At, Agree, Before, Calls, S.EvalArgs, LowerArgs, S.Invoke, S.EvalCall, LowerCall;
    CallDef(p, m.w, sc, fr, name, args, c, mem, tr, fuel);
    T := act.temps;
    var s := Here(act, rest, mem, tr);
    var low := LowerArgs(args, sc, c);
    var tail := [Instr.Call(low.temps + 1, name, low.out)];
    BeforeFirst(p, m, sc, fr, D, low.code, tail, c, low.temps, low.temps + 1, act);
    AtIndex(act.fn.code, act.pc + |low.code|, tail, 0);
    var U := ArgsSim(p, m, sc, fr, D, args, c, act, rest, mem, tr, fuel);
    var q := S.EvalArgs(p, m.w, fr, args, mem, tr, fuel);
    if q.Oks? {
      var a1 := There(act, |low.code|, U);
      var t1 := Here(a1, rest, q.mem, q.trace);
      Named(p, m, sc, fr, D, LowerCall(name, args, sc, c).code, c, low.temps + 1, act);
      InvokeSim(p, m, a1, rest, low.temps + 1, name, low.out, q.mem, q.trace, fuel);
      var r := S.Invoke(p, m.w, fr.fn, fr.base, name, q.values, q.mem, q.trace, fuel);
      match r {
        case Ok(v, mem1, tr1) =>
          AgreeSet(act.temps, U, c, low.temps, low.temps + 1, v);
          T := U[low.temps + 1 := v];
          ReachesTrans(m, s, t1, Here(There(a1, 1, T), rest, mem1, tr1), 0, 0);
        case Timeout(tr1) => LastsTrans(m, s, t1, tr1, 0, fuel);
        case Fail(why, tr1) => ReachesTrans(m, s, t1, Faulted(why, tr1), 0, 0);
      }
    }
  }

  lemma Named(p: Program, m: Machine, sc: Scope, fr: S.Frame, D: seq<nat>, code: seq<Instr>, c: nat,
              d: nat, act: Act)
    requires Before(p, m, sc, fr, D, code, c, d, act)
    ensures Compiled(p, m) && act.fn.name == fr.fn && act.base == fr.base
  {
    hide At, ScopeOK, StorageOK, Compiled, Apart;
  }

  lemma FindLowered(p: Program, m: Machine, name: string)
    requires Compiled(p, m)
    ensures FindFn(m.fns, name) == FindFunction(p.fns, name)
    ensures FindFunction(p.fns, name) >= 0 ==>
              |p.fns| == |m.fns|
              && m.fns[FindFunction(p.fns, name)].params == |p.fns[FindFunction(p.fns, name)].params|
  {
    var i, j := FindFn(m.fns, name), FindFunction(p.fns, name);
    assert forall k :: 0 <= k < |p.fns| ==> m.fns[k].name == p.fns[k].name;
  }

  /** The `Call` instruction does what calling the function means. */
  lemma {:induction false} InvokeSim(p: Program, m: Machine, act: Act, rest: Stack, d: nat,
      name: string, ts: seq<nat>, mem: Memory, tr: seq<Event>, fuel: nat)
    requires Compiled(p, m) && Calls(p, m, fuel)
    requires act.pc < |act.fn.code| && act.fn.code[act.pc] == Instr.Call(d, name, ts)
    requires AllSet(act.temps, ts)
    ensures
      var s := Here(act, rest, mem, tr);
      match S.Invoke(p, m.w, act.fn.name, act.base, name, Values(act.temps, ts), mem, tr, fuel)
      case Ok(v, mem1, tr1) =>
        Reaches(m, s, Here(There(act, 1, act.temps[d := v]), rest, mem1, tr1), 0)
      case Timeout(tr1) => Lasts(m, s, tr1, fuel)
      case Fail(why, tr1) => Reaches(m, s, Faulted(why, tr1), 0)
  {
    hide Reaches, Lasts, Run, Step, Compiled, S.Enter, Entered, AllSet, LowerProgram;
    var s := Here(act, rest, mem, tr);
    var vs := Values(act.temps, ts);
    ReachesSelf(m, s);
    Stepped(m, s, s, 0);
    CallStep(m, act, rest, d, name, ts, mem, tr);
    FindLowered(p, m, name);
    var i := FindFunction(p.fns, name);
    if i >= 0 && |vs| == |p.fns[i].params| {
      match m.w.lay.enter(act.fn.name, act.base, name, |vs|) {
        case None =>
        case Some(base) =>
          if fuel == 0 {
            LastsSelf(m, act, rest, mem, tr);
          } else {
            var t := Entered(m, m.fns[i], base, vs, s.stack, mem, tr);
            assert Entering(p, m, i, base, vs, s.stack, mem, tr, fuel - 1);
            match S.Enter(p, m.w, p.fns[i], base, vs, mem, tr, fuel - 1) {
              case Ok(v, mem1, tr1) => ReachesTrans(m, s, t, Resume(s.stack, v, mem1, tr1), 0, 0);
              case Timeout(tr1) => LastsTrans(m, s, t, tr1, 1, fuel - 1);
              case Fail(why, tr1) => ReachesTrans(m, s, t, Faulted(why, tr1), 0, 0);
            }
          }
      }
    }
  }

  lemma LastsSelf(m: Machine, act: Act, rest: Stack, mem: Memory, tr: seq<Event>)
    ensures Lasts(m, Here(act, rest, mem, tr), tr, 0)
  {
    ReachesSelf(m, Here(act, rest, mem, tr));
  }

  lemma CallStep(m: Machine, act: Act, rest: Stack, d: nat, name: string, ts: seq<nat>, mem: Memory,
                 tr: seq<Event>)
    requires act.pc < |act.fn.code| && act.fn.code[act.pc] == Instr.Call(d, name, ts)
    requires AllSet(act.temps, ts)
    ensures Step(m, Here(act, rest, mem, tr)) ==
              StepCall(m, Here(act, rest, mem, tr), name, Values(act.temps, ts), d)
  {
    hide StepCall, Values, AllSet;
  }
}
