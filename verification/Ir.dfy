/** The three-address IR of src/ir.h and a small-step machine that runs it. */
module Ir {
  import opened Words

  datatype Instr =
    | Label(id: nat)
    | Const(dest: nat, imm: Word)
    | Data(dest: nat, str: nat)
    | Alloc(dest: nat)
    | Address(dest: nat, src: nat)
    | Load(dest: nat, addr: nat)
    | Store(addr: nat, src: nat)
    | GlobalLoad(dest: nat, name: string)
    | GlobalStore(name: string, src: nat)
    | GlobalAddr(dest: nat, name: string)
    | Neg(dest: nat, src: nat)
    | Bin(op: BinOp, dest: nat, a: nat, b: nat)
    | Jump(id: nat)
    | Branch(cond: nat, yes: nat, no: nat)
    | Call(dest: nat, name: string, args: seq<nat>)
    | Return(value: nat)

  datatype Fn = Fn(name: string, params: nat, code: seq<Instr>)

  // ----- what the machine shares with the source semantics -----

  /** A call of a function that the program does not define. */
  datatype Event = Event(name: string, args: seq<Word>, answer: Word)

  /** A cell that exists but was never written holds `Undef`. */
  datatype Value = Undef | Is(word: Word)

  type Memory = map<Word, Value>

  /** Where storage lives. `enter(f, base, g, n)` is the base of the activation that a
      call of `g` with `n` arguments creates from an activation of `f` at `base`, if there
      is room for it; `room` says the same of a call that leaves the program. */
  datatype Layout = Layout(
    enter: (string, Word, string, nat) -> Option<Word>,
    room: (string, Word, nat) -> bool,
    cell: (string, Word, nat) -> Word,
    global: string -> Word,
    data: nat -> Word)

  /** The functions outside the program: what they answer and how many arguments they take. */
  datatype Env = Env(
    answer: (seq<Event>, string, seq<Word>) -> Word,
    arity: string -> nat)

  datatype World = World(lay: Layout, env: Env)

  /** Why a run cannot go on. */
  datatype Fault =
    | Unset          // the storage of a variable whose `auto` was never executed
    | Unmapped       // an address that is not a live cell
    | Uninitialised  // a cell that was never written
    | NoQuotient
    | WrongArity
    | NoRoom
    | Malformed      // what the lowering refuses
    | NoSuchLabel
    | OffTheEnd

  function CellSet(w: World, fn: string, base: Word, n: nat): set<Word> {
    set k | 0 <= k < n :: w.lay.cell(fn, base, k)
  }

  function Allocate(mem: Memory, cells: set<Word>): Memory {
    mem + map a | a in cells :: Undef
  }

  function Free(mem: Memory, cells: set<Word>): Memory {
    mem - cells
  }

  datatype Got = Got(value: Word) | Bad(why: Fault)

  function Fetch(mem: Memory, a: Word): Got {
    if a !in mem then Bad(Unmapped)
    else match mem[a]
      case Undef => Bad(Uninitialised)
      case Is(v) => Got(v)
  }

  // ----- the machine -----

  datatype Act = Act(fn: Fn, base: Word, pc: nat, temps: map<nat, Word>)

  /** The activations, innermost first. A suspended one rests on its `Call`. */
  datatype Stack = Bottom | Push(act: Act, rest: Stack)

  datatype State =
    | Running(stack: Stack, mem: Memory, trace: seq<Event>)
    | Halted(value: Word, mem: Memory, trace: seq<Event>)
    | Faulted(why: Fault, trace: seq<Event>)

  datatype Machine = Machine(fns: seq<Fn>, w: World)

  function FindFn(fns: seq<Fn>, name: string): (r: int)
    ensures -1 <= r < |fns|
    ensures r >= 0 ==> fns[r].name == name
    ensures forall i :: 0 <= i < (if r < 0 then |fns| else r) ==> fns[i].name != name
  {
    FindFnFrom(fns, name, 0)
  }

  function FindFnFrom(fns: seq<Fn>, name: string, i: nat): (r: int)
    requires i <= |fns|
    requires forall j :: 0 <= j < i ==> fns[j].name != name
    ensures -1 <= r < |fns|
    ensures r >= 0 ==> fns[r].name == name
    ensures forall k :: 0 <= k < (if r < 0 then |fns| else r) ==> fns[k].name != name
    decreases |fns| - i
  {
    if i == |fns| then -1
    else if fns[i].name == name then i
    else FindFnFrom(fns, name, i + 1)
  }

  /** The first position of `Label(id)`, or the length of the code. */
  function FindLabel(code: seq<Instr>, id: nat): (r: nat)
    ensures r <= |code|
    ensures r < |code| ==> code[r] == Label(id)
    ensures forall i :: 0 <= i < r ==> code[i] != Label(id)
  {
    if code == [] then 0
    else if code[0] == Label(id) then 0
    else
      var r := FindLabel(code[1..], id);
      assert forall i :: 1 <= i < 1 + r ==> code[i] == code[1..][i - 1];
      1 + r
  }

  function Allocs(code: seq<Instr>): nat {
    if code == [] then 0
    else Allocs(code[..|code| - 1]) + (if code[|code| - 1].Alloc? then 1 else 0)
  }

  predicate AllSet(temps: map<nat, Word>, ts: seq<nat>) {
    forall i :: 0 <= i < |ts| ==> ts[i] in temps
  }

  function Values(temps: map<nat, Word>, ts: seq<nat>): (vs: seq<Word>)
    requires AllSet(temps, ts)
    ensures |vs| == |ts|
  {
    seq(|ts|, i requires 0 <= i < |ts| => temps[ts[i]])
  }

  /** Incoming arguments occupy temps 1, 2, ... */
  function ArgTemps(args: seq<Word>): (temps: map<nat, Word>)
    ensures forall t: nat :: t in temps <==> 1 <= t <= |args|
    ensures forall t: nat :: t in temps ==> temps[t] == args[t - 1]
  {
    if args == [] then map[]
    else ArgTemps(args[..|args| - 1])[|args| := args[|args| - 1]]
  }

  function GoTo(s: State, id: nat): State
    requires s.Running? && s.stack.Push?
  {
    var act := s.stack.act;
    var p := FindLabel(act.fn.code, id);
    if p < |act.fn.code|
    then Running(Push(act.(pc := p), s.stack.rest), s.mem, s.trace)
    else Faulted(NoSuchLabel, s.trace)
  }

  /** The state after the instruction at `pc` has put `v` in temp `d`. */
  function Set(s: State, d: nat, v: Word): State
    requires s.Running? && s.stack.Push?
  {
    var act := s.stack.act;
    Running(Push(act.(pc := act.pc + 1, temps := act.temps[d := v]), s.stack.rest), s.mem, s.trace)
  }

  function Skip(s: State, mem: Memory): State
    requires s.Running? && s.stack.Push?
  {
    var act := s.stack.act;
    Running(Push(act.(pc := act.pc + 1), s.stack.rest), mem, s.trace)
  }

  /** What the innermost caller sees when the callee answers `v`. */
  function Resume(stack: Stack, v: Word, mem: Memory, trace: seq<Event>): State {
    match stack
    case Bottom => Halted(v, mem, trace)
    case Push(act, rest) =>
      if act.pc < |act.fn.code| && act.fn.code[act.pc].Call?
      then Set(Running(stack, mem, trace), act.fn.code[act.pc].dest, v)
      else Faulted(Malformed, trace)
  }

  /** The first state of the activation of `fn` at `base`. */
  function Entered(m: Machine, fn: Fn, base: Word, args: seq<Word>, rest: Stack,
                   mem: Memory, trace: seq<Event>): State
  {
    Running(Push(Act(fn, base, 0, ArgTemps(args)), rest),
            Allocate(mem, CellSet(m.w, fn.name, base, Allocs(fn.code))), trace)
  }

  function StepCall(m: Machine, s: State, name: string, args: seq<Word>, dest: nat): State
    requires s.Running? && s.stack.Push?
  {
    var act := s.stack.act;
    var i := FindFn(m.fns, name);
    if i < 0 then
      if |args| != m.w.env.arity(name) then Faulted(WrongArity, s.trace)
      else if !m.w.lay.room(act.fn.name, act.base, |args|) then Faulted(NoRoom, s.trace)
      else
        var v := m.w.env.answer(s.trace, name, args);
        Set(Running(s.stack, s.mem, s.trace + [Event(name, args, v)]), dest, v)
    else if |args| != m.fns[i].params then Faulted(WrongArity, s.trace)
    else match m.w.lay.enter(act.fn.name, act.base, name, |args|)
      case None => Faulted(NoRoom, s.trace)
      case Some(base) => Entered(m, m.fns[i], base, args, s.stack, s.mem, s.trace)
  }

  /** One instruction. A state that cannot go on is its own successor. */
  function Step(m: Machine, s: State): State {
    if !s.Running? then s
    else if s.stack.Bottom? then Faulted(OffTheEnd, s.trace)
    else
      var act: Act := s.stack.act;
      var tr: seq<Event> := s.trace;
      var T: map<nat, Word> := act.temps;
      if act.pc >= |act.fn.code| then Faulted(OffTheEnd, tr)
      else match act.fn.code[act.pc]
        case Label(_) => Skip(s, s.mem)
        case Const(d, n) => Set(s, d, n)
        case Data(d, n) => Set(s, d, m.w.lay.data(n))
        case Alloc(d) =>
          Set(s, d, m.w.lay.cell(act.fn.name, act.base, Allocs(act.fn.code[..act.pc])))
        case Address(d, t) => if t in T then Set(s, d, T[t]) else Faulted(Unset, tr)
        case Load(d, t) =>
          if t !in T then Faulted(Unset, tr)
          else (match Fetch(s.mem, T[t])
            case Bad(why) => Faulted(why, tr)
            case Got(v) => Set(s, d, v))
        case Store(t, u) =>
          if t !in T || u !in T then Faulted(Unset, tr)
          else if T[t] !in s.mem then Faulted(Unmapped, tr)
          else Skip(s, s.mem[T[t] := Is(T[u])])
        case GlobalLoad(d, g) =>
          (match Fetch(s.mem, m.w.lay.global(g))
            case Bad(why) => Faulted(why, tr)
            case Got(v) => Set(s, d, v))
        case GlobalStore(g, u) =>
          if u !in T then Faulted(Unset, tr)
          else if m.w.lay.global(g) !in s.mem then Faulted(Unmapped, tr)
          else Skip(s, s.mem[m.w.lay.global(g) := Is(T[u])])
        case GlobalAddr(d, g) => Set(s, d, m.w.lay.global(g))
        case Neg(d, t) => if t in T then Set(s, d, Negate(T[t])) else Faulted(Unset, tr)
        case Bin(op, d, t, u) =>
          if t !in T || u !in T then Faulted(Unset, tr)
          else (match Apply(op, T[t], T[u])
            case None => Faulted(NoQuotient, tr)
            case Some(v) => Set(s, d, v))
        case Jump(id) => GoTo(s, id)
        case Branch(t, yes, no) =>
          if t !in T then Faulted(Unset, tr)
          else GoTo(s, if T[t] != 0 then yes else no)
        case Call(d, name, ts) =>
          if AllSet(T, ts) then StepCall(m, s, name, Values(T, ts), d) else Faulted(Unset, tr)
        case Return(t) =>
          if t !in T then Faulted(Unset, tr)
          else
            Resume(s.stack.rest, T[t],
                   Free(s.mem, CellSet(m.w, act.fn.name, act.base, Allocs(act.fn.code))), tr)
  }

  function Run(m: Machine, s: State, n: nat): State
    decreases n
  {
    if n == 0 then s else Run(m, Step(m, s), n - 1)
  }

  // ----- reachability -----

  /** `t` is what `s` becomes after some number of steps, at least `n`. */
  ghost predicate Reaches(m: Machine, s: State, t: State, n: nat) {
    exists k: nat :: k >= n && Run(m, s, k) == t
  }

  /** `s` is still running after some number of steps, at least `n`, with trace `tr`. */
  ghost predicate Lasts(m: Machine, s: State, tr: seq<Event>, n: nat) {
    exists t: State :: t.Running? && t.trace == tr && Reaches(m, s, t, n)
  }

  lemma {:induction false} RunSplit(m: Machine, s: State, i: nat, j: nat)
    ensures Run(m, s, i + j) == Run(m, Run(m, s, i), j)
    decreases i
  {
    if i != 0 {
      RunSplit(m, Step(m, s), i - 1, j);
    }
  }

  lemma ReachesSelf(m: Machine, s: State)
    ensures Reaches(m, s, s, 0)
  {
    assert Run(m, s, 0) == s;
  }

  lemma ReachesStep(m: Machine, s: State)
    ensures Reaches(m, s, Step(m, s), 1)
  {
    assert Run(m, s, 1) == Step(m, s) by {
      assert Run(m, Step(m, s), 0) == Step(m, s);
    }
  }

  lemma ReachesTrans(m: Machine, s: State, t: State, u: State, i: nat, j: nat)
    requires Reaches(m, s, t, i) && Reaches(m, t, u, j)
    ensures Reaches(m, s, u, i + j)
  {
    var a: nat :| a >= i && Run(m, s, a) == t;
    var b: nat :| b >= j && Run(m, t, b) == u;
    RunSplit(m, s, a, b);
    assert Run(m, s, a + b) == u;
  }

  lemma LastsTrans(m: Machine, s: State, t: State, tr: seq<Event>, i: nat, j: nat)
    requires Reaches(m, s, t, i) && Lasts(m, t, tr, j)
    ensures Lasts(m, s, tr, i + j)
  {
    var u: State :| u.Running? && u.trace == tr && Reaches(m, t, u, j);
    ReachesTrans(m, s, t, u, i, j);
  }

  lemma ReachesWeaken(m: Machine, s: State, t: State, i: nat, j: nat)
    requires Reaches(m, s, t, i) && j <= i
    ensures Reaches(m, s, t, j)
  {
    var a: nat :| a >= i && Run(m, s, a) == t;
  }
}
