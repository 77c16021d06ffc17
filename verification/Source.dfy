/** What a B program means, read off its syntax tree.

    Arithmetic, memory and outside calls are those of the IR machine. Names are bound
    statically: an identifier denotes the innermost enclosing declaration textually before
    it, and a declaration owns one cell of its activation, numbered in text order. `bound`
    records which declarations of the activation have been executed, so that using a
    variable whose `auto` was jumped over is a fault. `fuel` bounds the depth of calls,
    loop rounds and jumps; running out of it is the answer `Timeout`. */
module Source {
  import opened Words
  import opened Ast
  import opened Scopes
  import Tok = Tokens
  import I = Ir

  /** An activation, as seen from one point of its text. */
  datatype Frame = Frame(fn: string, base: Word, scope: Scope, bound: set<nat>)

  datatype Result =
    | Ok(value: Word, mem: I.Memory, trace: seq<I.Event>)
    | Timeout(trace: seq<I.Event>)
    | Fail(why: I.Fault, trace: seq<I.Event>)

  /** The answer of an argument list. */
  datatype Results =
    | Oks(values: seq<Word>, mem: I.Memory, trace: seq<I.Event>)
    | Stops(at: Result)

  datatype Outcome =
    | Next(mem: I.Memory, trace: seq<I.Event>, bound: set<nat>)
    | Jumped(target: string, mem: I.Memory, trace: seq<I.Event>, bound: set<nat>)
    | Returned(value: Word, mem: I.Memory, trace: seq<I.Event>)
    | Expired(trace: seq<I.Event>)
    | Failed(why: I.Fault, trace: seq<I.Event>)

  /** A statement is entered at its start, or at a label inside it. */
  datatype Mode = Start | Seek(target: string)

  function OperatorOf(kind: Tok.Kind): Option<BinOp> {
    match kind
    case Add => Some(BinOp.Add)
    case Sub => Some(BinOp.Sub)
    case Mul => Some(BinOp.Mul)
    case Dev => Some(BinOp.Div)
    case Mod => Some(BinOp.Mod)
    case BitAnd => Some(BinOp.And)
    case BitOr => Some(BinOp.Or)
    case BitshiftL => Some(BinOp.Shl)
    case BitshiftR => Some(BinOp.Shr)
    case Equal => Some(BinOp.Eq)
    case NotEqual => Some(BinOp.Ne)
    case Greater => Some(BinOp.Gt)
    case GreaterEqual => Some(BinOp.Ge)
    case Lesser => Some(BinOp.Lt)
    case LesserEqual => Some(BinOp.Le)
    case _ => None
  }

  // ----- expressions -----

  function VarAddress(w: I.World, fr: Frame, name: string): I.Got {
    match Lookup(fr.scope, name)
    case Local(k) =>
      if k in fr.bound then I.Got.Got(w.lay.cell(fr.fn, fr.base, k)) else I.Bad(I.Unset)
    case Global => I.Got.Got(w.lay.global(name))
    case Missing => I.Bad(I.Malformed)
  }

  function LoadAt(a: Word, mem: I.Memory, tr: seq<I.Event>): Result {
    match I.Fetch(mem, a)
    case Bad(why) => Fail(why, tr)
    case Got(v) => Ok(v, mem, tr)
  }

  /** Writes `v` at `a` and answers `v`. */
  function StoreAt(a: Word, v: Word, mem: I.Memory, tr: seq<I.Event>): Result {
    if a in mem then Ok(v, mem[a := I.Is(v)], tr) else Fail(I.Unmapped, tr)
  }

  function EvalAtom(w: I.World, fr: Frame, kind: Tok.Kind, value: string, n: nat, mem: I.Memory,
                    tr: seq<I.Event>): Result
  {
    match kind
    case IntLit => Ok(Wrap(n), mem, tr)
    case StrLit => Ok(w.lay.data(n), mem, tr)
    case Identifier =>
      (match VarAddress(w, fr, value)
       case Bad(why) => Fail(why, tr)
       case Got(a) => LoadAt(a, mem, tr))
    case _ => Fail(I.Malformed, tr)
  }

  function Eval(p: Program, w: I.World, fr: Frame, e: Expr, mem: I.Memory,
    tr: seq<I.Event>, fuel: nat): Result
    decreases fuel, 1, e, 1
  {
    match e
    case Atom(kind, value, n) => EvalAtom(w, fr, kind, value, n, mem, tr)
    case Unary(op, x) =>
      (match op
       case BitAnd => EvalAddress(p, w, fr, x, mem, tr, fuel)
       case Mul => EvalDeref(p, w, fr, x, mem, tr, fuel)
       case Sub => EvalNeg(p, w, fr, x, mem, tr, fuel)
       case Not => EvalNot(p, w, fr, x, mem, tr, fuel)
       case Inc => Bump(p, w, fr, x, 1, mem, tr, fuel)
       case Dec => Bump(p, w, fr, x, -1, mem, tr, fuel)
       case _ => Fail(I.Malformed, tr))
    case Binary(l, op, r) =>
      if op == Tok.Assign then EvalAssign(p, w, fr, l, r, mem, tr, fuel)
      else EvalBinary(p, w, fr, l, op, r, mem, tr, fuel)
    case FunctionCall(name, args) => EvalCall(p, w, fr, name, args, mem, tr, fuel)
  }

  function EvalDeref(p: Program, w: I.World, fr: Frame, x: Expr, mem: I.Memory,
    tr: seq<I.Event>, fuel: nat): Result
    decreases fuel, 1, x, 2
  {
    match Eval(p, w, fr, x, mem, tr, fuel)
    case Ok(v, mem1, tr1) => LoadAt(v, mem1, tr1)
    case r => r
  }

  function EvalNeg(p: Program, w: I.World, fr: Frame, x: Expr, mem: I.Memory,
    tr: seq<I.Event>, fuel: nat): Result
    decreases fuel, 1, x, 2
  {
    match Eval(p, w, fr, x, mem, tr, fuel)
    case Ok(v, mem1, tr1) => Ok(Negate(v), mem1, tr1)
    case r => r
  }

  function EvalNot(p: Program, w: I.World, fr: Frame, x: Expr, mem: I.Memory,
    tr: seq<I.Event>, fuel: nat): Result
    decreases fuel, 1, x, 2
  {
    match Eval(p, w, fr, x, mem, tr, fuel)
    case Ok(v, mem1, tr1) => Ok(FromBool(v == 0), mem1, tr1)
    case r => r
  }

  /** The right side first, then the address, then the store. */
  function EvalAssign(p: Program, w: I.World, fr: Frame, l: Expr, r: Expr, mem: I.Memory,
    tr: seq<I.Event>, fuel: nat): Result
    decreases fuel, 1, Binary(l, Tok.Assign, r), 0
  {
    match Eval(p, w, fr, r, mem, tr, fuel)
    case Ok(v, mem1, tr1) =>
      (match EvalAddress(p, w, fr, l, mem1, tr1, fuel)
       case Ok(a, mem2, tr2) => StoreAt(a, v, mem2, tr2)
       case r => r)
    case r => r
  }

  function EvalBinary(p: Program, w: I.World, fr: Frame, l: Expr, op: Tok.Kind, r: Expr, mem: I.Memory,
    tr: seq<I.Event>, fuel: nat): Result
    decreases fuel, 1, Binary(l, op, r), 0
  {
    match OperatorOf(op)
    case None => Fail(I.Malformed, tr)
    case Some(o) =>
      match Eval(p, w, fr, l, mem, tr, fuel)
      case Ok(x, mem1, tr1) =>
        (match Eval(p, w, fr, r, mem1, tr1, fuel)
         case Ok(y, mem2, tr2) =>
           (match Apply(o, x, y)
            case Some(v) => Ok(v, mem2, tr2)
            case None => Fail(I.NoQuotient, tr2))
         case r => r)
      case r => r
  }

  function EvalCall(p: Program, w: I.World, fr: Frame, name: string, args: Exprs, mem: I.Memory,
    tr: seq<I.Event>, fuel: nat): Result
    decreases fuel, 1, args, 2
  {
    match EvalArgs(p, w, fr, args, mem, tr, fuel)
    case Oks(vs, mem1, tr1) => Invoke(p, w, fr.fn, fr.base, name, vs, mem1, tr1, fuel)
    case Stops(r) => r
  }

  /** The address an lvalue denotes. */
  function EvalAddress(p: Program, w: I.World, fr: Frame, e: Expr, mem: I.Memory,
                       tr: seq<I.Event>, fuel: nat): Result
    decreases fuel, 1, e, 1
  {
    match e
    case Atom(Identifier, name, _) =>
      (match VarAddress(w, fr, name)
       case Bad(why) => Fail(why, tr)
       case Got(a) => Ok(a, mem, tr))
    case Unary(Mul, x) => Eval(p, w, fr, x, mem, tr, fuel)
    case _ => Fail(I.Malformed, tr)
  }

  /** `++x` and `--x`: the address is computed once. */
  function Bump(p: Program, w: I.World, fr: Frame, x: Expr, delta: int, mem: I.Memory,
                tr: seq<I.Event>, fuel: nat): Result
    decreases fuel, 1, x, 2
  {
    match EvalAddress(p, w, fr, x, mem, tr, fuel)
    case Ok(a, mem1, tr1) =>
      (match LoadAt(a, mem1, tr1)
       case Ok(v, _, _) => StoreAt(a, Wrap(v + delta), mem1, tr1)
       case r => r)
    case r => r
  }

  function EvalArgs(p: Program, w: I.World, fr: Frame, args: Exprs, mem: I.Memory,
                    tr: seq<I.Event>, fuel: nat): Results
    decreases fuel, 1, args, 1
  {
    match args
    case NoExprs => Oks([], mem, tr)
    case MoreExprs(e, next) =>
      match Eval(p, w, fr, e, mem, tr, fuel)
      case Ok(v, mem1, tr1) =>
        (match EvalArgs(p, w, fr, next, mem1, tr1, fuel)
         case Oks(vs, mem2, tr2) => Oks([v] + vs, mem2, tr2)
         case r => r)
      case r => Stops(r)
  }

  // ----- calls -----

  /** The cells of the parameters hold the arguments. */
  function StoreArgs(w: I.World, fn: string, base: Word, args: seq<Word>, mem: I.Memory): I.Memory
  {
    if args == [] then mem
    else
      var n := |args| - 1;
      StoreArgs(w, fn, base, args[..n], mem)[w.lay.cell(fn, base, n) := I.Is(args[n])]
  }

  function ParamTable(params: seq<string>): map<string, nat> {
    if params == [] then map[]
    else ParamTable(params[..|params| - 1])[params[|params| - 1] := |params| - 1]
  }

  function FirstScope(p: Program, f: Function): Scope {
    Inner(map[], Inner(ParamTable(f.params), Globals(p.globals.Keys)))
  }

  function Numbers(n: nat): (r: set<nat>)
    ensures forall k: nat :: k in r <==> k < n
  {
    if n == 0 then {} else Numbers(n - 1) + {n - 1}
  }

  function FirstFrame(p: Program, f: Function, base: Word): Frame {
    Frame(f.name, base, FirstScope(p, f), Numbers(|f.params|))
  }

  /** Runs `f` with its cells at `base`, from fresh cells to freed cells. */
  function Enter(p: Program, w: I.World, f: Function, base: Word, args: seq<Word>,
                 mem: I.Memory, tr: seq<I.Event>, fuel: nat): Result
    decreases fuel, 4
  {
    var cells := I.CellSet(w, f.name, base, Cells(f));
    var mem0 := StoreArgs(w, f.name, base, args, I.Allocate(mem, cells));
    match RunBody(p, w, f, FirstFrame(p, f, base), Start, mem0, tr, fuel)
    case Returned(v, mem1, tr1) => Ok(v, I.Free(mem1, cells), tr1)
    case Expired(tr1) => Timeout(tr1)
    case Failed(why, tr1) => Fail(why, tr1)
    case _ => Fail(I.Malformed, tr)
  }

  /** Calls `name` from an activation of `fn` at `base`. */
  function Invoke(p: Program, w: I.World, fn: string, base: Word, name: string, args: seq<Word>,
                  mem: I.Memory, tr: seq<I.Event>, fuel: nat): Result
    decreases fuel, 0
  {
    var i := FindFunction(p.fns, name);
    if i < 0 then
      if |args| != w.env.arity(name) then Fail(I.WrongArity, tr)
      else if !w.lay.room(fn, base, |args|) then Fail(I.NoRoom, tr)
      else
        var v := w.env.answer(tr, name, args);
        Ok(v, mem, tr + [I.Event(name, args, v)])
    else if |args| != |p.fns[i].params| then Fail(I.WrongArity, tr)
    else match w.lay.enter(fn, base, name, |args|)
      case None => Fail(I.NoRoom, tr)
      case Some(base1) =>
        if fuel == 0 then Timeout(tr)
        else Enter(p, w, p.fns[i], base1, args, mem, tr, fuel - 1)
  }

  // ----- statements -----

  function Opened(fr: Frame): Frame {
    fr.(scope := Inner(map[], fr.scope))
  }

  /** The frame as seen by the text after `s`, the k-th declaration coming next in `s`. */
  function After(fr: Frame, s: Stmt, k: nat): Frame {
    match s
    case Auto(name, _) =>
      if fr.scope.Inner?
      then fr.(scope := fr.scope.(symtab := fr.scope.symtab[name := k]))
      else fr
    case _ => fr
  }

  function Exec(p: Program, w: I.World, fr: Frame, s: Stmt, k: nat, mode: Mode, mem: I.Memory,
                tr: seq<I.Event>, fuel: nat): Outcome
    decreases fuel, 2, s
  {
    match s
    case Block(body) => ExecAll(p, w, Opened(fr), body, k, mode, mem, tr, fuel)
    case If(links) => ExecChain(p, w, fr, links, k, mode, mem, tr, fuel)
    case While(cond, body) =>
      if mode.Seek? then Again(p, w, fr, s, k, ExecAll(p, w, Opened(fr), body, k, mode, mem, tr, fuel), fuel)
      else (match Eval(p, w, fr, cond, mem, tr, fuel)
            case Timeout(tr1) => Expired(tr1)
            case Fail(why, tr1) => Failed(why, tr1)
            case Ok(v, mem1, tr1) =>
              if v == 0 then Next(mem1, tr1, fr.bound)
              else Again(p, w, fr, s, k, ExecAll(p, w, Opened(fr), body, k, Start, mem1, tr1, fuel), fuel))
    case Lable(name) =>
      if mode == Start || mode == Seek(name) then Next(mem, tr, fr.bound)
      else Failed(I.NoSuchLabel, tr)
    case _ =>
      if mode.Seek? then Failed(I.NoSuchLabel, tr) else ExecPlain(p, w, fr, s, k, mem, tr, fuel)
  }

  /** The statements that contain no others. */
  function ExecPlain(p: Program, w: I.World, fr: Frame, s: Stmt, k: nat, mem: I.Memory,
                     tr: seq<I.Event>, fuel: nat): Outcome
    decreases fuel, 2, s, 0
  {
    match s
    case Return(e) =>
      (match Eval(p, w, fr, e, mem, tr, fuel)
       case Timeout(tr1) => Expired(tr1)
       case Fail(why, tr1) => Failed(why, tr1)
       case Ok(v, mem1, tr1) => Returned(v, mem1, tr1))
    case Simple(e) =>
      (match Eval(p, w, fr, e, mem, tr, fuel)
       case Timeout(tr1) => Expired(tr1)
       case Fail(why, tr1) => Failed(why, tr1)
       case Ok(_, mem1, tr1) => Next(mem1, tr1, fr.bound))
    case Auto(_, _) => Next(mem, tr, fr.bound + {k})
    case Goto(name) => Jumped(name, mem, tr, fr.bound)
    case _ => Next(mem, tr, fr.bound)
  }

  /** What follows one round of the body of the loop `s`. */
  function Again(p: Program, w: I.World, fr: Frame, s: Stmt, k: nat, round: Outcome,
                 fuel: nat): Outcome
    decreases fuel, 2, s, 0
  {
    match round
    case Next(mem, tr, bound) =>
      if fuel == 0 then Expired(tr)
      else Exec(p, w, fr.(bound := bound), s, k, Start, mem, tr, fuel - 1)
    case _ => round
  }

  function ExecChain(p: Program, w: I.World, fr: Frame, c: Chain, k: nat, mode: Mode,
                     mem: I.Memory, tr: seq<I.Event>, fuel: nat): Outcome
    decreases fuel, 2, c
  {
    match c
    case NoChain => if mode == Start then Next(mem, tr, fr.bound) else Failed(I.NoSuchLabel, tr)
    case Link(cond, body, chain) =>
      if mode.Seek? then
        if mode.target in LabelsIn(body) then ExecAll(p, w, Opened(fr), body, k, mode, mem, tr, fuel)
        else ExecChain(p, w, fr, chain, k + AutosIn(body), mode, mem, tr, fuel)
      else
        (match Eval(p, w, fr, cond, mem, tr, fuel)
         case Timeout(tr1) => Expired(tr1)
         case Fail(why, tr1) => Failed(why, tr1)
         case Ok(v, mem1, tr1) =>
           if v != 0 then ExecAll(p, w, Opened(fr), body, k, Start, mem1, tr1, fuel)
           else ExecChain(p, w, fr, chain, k + AutosIn(body), Start, mem1, tr1, fuel))
    case Else(body) => ExecAll(p, w, Opened(fr), body, k, mode, mem, tr, fuel)
  }

  function ExecAll(p: Program, w: I.World, fr: Frame, ss: Stmts, k: nat, mode: Mode,
                   mem: I.Memory, tr: seq<I.Event>, fuel: nat): Outcome
    decreases fuel, 2, ss
  {
    match ss
    case NoStmts => if mode == Start then Next(mem, tr, fr.bound) else Failed(I.NoSuchLabel, tr)
    case MoreStmts(s, next) =>
      if mode == Start || mode.target in Labels(s) then
        match Exec(p, w, fr, s, k, mode, mem, tr, fuel)
        case Next(mem1, tr1, bound1) =>
          ExecAll(p, w, After(fr, s, k).(bound := bound1), next, k + Autos(s), Start, mem1, tr1, fuel)
        case o => o
      else ExecAll(p, w, After(fr, s, k), next, k + Autos(s), mode, mem, tr, fuel)
  }

  /** A jump leaves every block it is in and enters the body again at its label. */
  function RunBody(p: Program, w: I.World, f: Function, fr: Frame, mode: Mode, mem: I.Memory,
                   tr: seq<I.Event>, fuel: nat): Outcome
    decreases fuel, 3
  {
    match ExecAll(p, w, fr, f.body, |f.params|, mode, mem, tr, fuel)
    case Next(mem1, tr1, _) => Returned(0, mem1, tr1)
    case Jumped(target, mem1, tr1, bound1) =>
      if target !in LabelsIn(f.body) then Failed(I.NoSuchLabel, tr1)
      else if fuel == 0 then Expired(tr1)
      else RunBody(p, w, f, fr.(bound := bound1), Seek(target), mem1, tr1, fuel - 1)
    case o => o
  }

  // ----- whole programs -----

  function GlobalWords(p: Program, w: I.World): set<Word> {
    set g, i | g in p.globals && 0 <= i < GlobalSize(p.globals[g]) :: GlobalWord(w, g, i)
  }

  function GlobalWord(w: I.World, g: string, i: nat): Word {
    Wrap(w.lay.global(g) + 8 * i)
  }

  /** A global declared without a size, or with size 0, has one word. */
  function GlobalSize(declared: nat): nat {
    if declared == 0 then 1 else declared
  }

  /** Globals start out zero. */
  function GlobalMemory(p: Program, w: I.World): I.Memory {
    map a | a in GlobalWords(p, w) :: I.Is(0)
  }

  /** The program started at the function `entry`. */
  function RunProgram(p: Program, w: I.World, entry: nat, base: Word, args: seq<Word>,
                      fuel: nat): Result
    requires entry < |p.fns|
  {
    Enter(p, w, p.fns[entry], base, args, GlobalMemory(p, w), [], fuel)
  }
}
