/** The whole compiler, from syntax tree to processor. */
module Compiler {
  import opened Words
  import opened Ast
  import opened Lowering
  import opened X86
  import opened Codegen
  import opened Listings
  import opened Frames
  import opened StepSimulation
  import opened JumpSimulation
  import opened BackEnd
  import FS = FunctionSimulation
  import Layouts = FrameLayout
  import S = Source
  import I = Ir

  /** Distinct function names, and distinct labels in each function. */
  predicate Named(p: Program) {
    && (forall i, j :: 0 <= i < j < |p.fns| ==> p.fns[i].name != p.fns[j].name)
    && (forall i :: 0 <= i < |p.fns| ==> Distinct(LabelsIn(p.fns[i].body)))
  }

  lemma LoweredRigged(p: Program, b: Board, fns: seq<I.Fn>)
    requires LowerProgram(p) == Some(fns) && Named(p)
    requires b.text == Text(fns) && |b.text| < TWO64
    ensures Rigged(fns, b)
  {
    hide LowerFunction, Text, TopTemp, Frames.TempsNumbered, Layouts.FinalTemp, Layouts.Ranged, LowerBlock;
    forall i | 0 <= i < |fns|
      ensures fns[i].name == p.fns[i].name && Frames.TempsNumbered(fns[i])
    {
      FS.FunctionDef(p.fns[i], p.globals.Keys);
      Layouts.FunctionTemps(p.fns[i], p.globals.Keys);
    }
  }

  /** What the processor does when the source's answer is `r`. */
  ghost predicate Behaves(b: Board, c: Cpu, r: S.Result, fuel: nat) {
    match r
    case Ok(v, mem, tr) => StopsWith(b, c, v, mem, tr)
    case Timeout(tr) => exists c1: Cpu :: Reaches(b, On(c), On(c1), fuel) && c1.trace == tr
    case Fail(why, tr) => why.NoQuotient? ==> DivideError(b, c, tr)
  }

  lemma FollowsBehaves(fns: seq<I.Fn>, b: Board, c: Cpu, t: I.State, n: nat, fuel: nat)
    requires Tracks(fns, b, c, t, n) && n >= fuel && t.Running?
    ensures Behaves(b, c, S.Timeout(t.trace), fuel)
  {
    hide Reaches, MemoryFits;
    var c1: Cpu :| Reaches(b, On(c), On(c1), n) && Match(fns, b, t, c1);
    ReachesLess(b, On(c), On(c1), n, fuel);
  }

  lemma BehavesAfter(b: Board, c: Cpu, c1: Cpu, r: S.Result, fuel: nat)
    requires Reaches(b, On(c), On(c1), 0) && Behaves(b, c1, r, fuel)
    ensures Behaves(b, c, r, fuel)
  {
    hide Reaches, MemoryOK, DivideError;
    match r
    case Ok(v, mem, tr) =>
      var M: map<Word, Word> :| Reaches(b, On(c1), Off(v, M, tr), 1) && MemoryOK(mem, M);
      ReachesTrans(b, On(c), On(c1), Off(v, M, tr), 0, 1);
    case Timeout(tr) =>
      var c2: Cpu :| Reaches(b, On(c1), On(c2), fuel) && c2.trace == tr;
      ReachesTrans(b, On(c), On(c1), On(c2), 0, fuel);
    case Fail(why, tr) =>
      if why.NoQuotient? {
        DivideErrorAfter(b, c, c1, tr);
      }
  }

  /** The compiler is correct. Start the processor on the listing of a program, with zeroed
      globals outside the stack and arguments passed as the ABI says. If the source answers, the
      processor stops with that answer, the same words in every initialised global and the same
      outside calls with the same arguments in the same order; if the source is still running
      after `fuel` rounds, the processor is still running after `fuel` steps with the same calls
      behind it; if the source divides without a quotient, the processor comes to an `idiv` that
      has none with the same calls behind it, and traps there. */
  lemma CompilerCorrect(p: Program, fns: seq<I.Fn>, b: Board, c: Cpu, entry: nat, base: Word, args: seq<Word>,
                        fuel: nat)
    requires Named(p) && LowerProgram(p) == Some(fns) && entry < |p.fns|
    requires b.text == Text(fns) && |b.text| < TWO64
    requires Booted(fns, b, c, entry, base, args, S.GlobalMemory(p, WorldOf(fns, b)))
    ensures Behaves(b, c, S.RunProgram(p, WorldOf(fns, b), entry, base, args, fuel), fuel)
  {
    hide S.Enter, Reaches, Match, Behaves, I.Run, I.Entered, Rigged, Text, LowerProgram, S.GlobalMemory, MemoryOK,
         StackMapped, Tracks, S.RunProgram, Booted;
    var m := MachineOf(fns, b);
    LoweredRigged(p, b, fns);
    BootedAt(fns, b, c, entry, base, args, S.GlobalMemory(p, m.w));
    var s := FS.Boot(p, m, entry, base, args);
    var c1 := BootSim(fns, b, c, entry, base, args, S.GlobalMemory(p, m.w));
    FS.LoweringPreservesMeaning(p, m, entry, base, args, fuel);
    RunBehaves(p, fns, b, c1, entry, base, args, fuel);
    BehavesAfter(b, c, c1, S.RunProgram(p, m.w, entry, base, args, fuel), fuel);
  }

  lemma BootedAt(fns: seq<I.Fn>, b: Board, c: Cpu, entry: nat, base: Word, args: seq<Word>, mem: I.Memory)
    requires Booted(fns, b, c, entry, base, args, mem)
    ensures entry < |fns| && |args| == fns[entry].params
  {
    hide FrameSize, StackMapped, MemoryOK, Text, Listing;
  }

  lemma RunBehaves(p: Program, fns: seq<I.Fn>, b: Board, c1: Cpu, entry: nat, base: Word, args: seq<Word>, fuel: nat)
    requires entry < |p.fns| && entry < |fns| && Rigged(fns, b)
    requires
      var s := FS.Boot(p, MachineOf(fns, b), entry, base, args);
      && Match(fns, b, s, c1)
      && match S.RunProgram(p, WorldOf(fns, b), entry, base, args, fuel)
         case Ok(v, mem, tr) => exists n: nat :: I.Run(MachineOf(fns, b), s, n) == I.Halted(v, mem, tr)
         case Fail(why, tr) => exists n: nat :: I.Run(MachineOf(fns, b), s, n) == I.Faulted(why, tr)
         case Timeout(tr) =>
           exists n: nat :: n >= fuel && I.Run(MachineOf(fns, b), s, n).Running?
                            && I.Run(MachineOf(fns, b), s, n).trace == tr
    ensures Behaves(b, c1, S.RunProgram(p, WorldOf(fns, b), entry, base, args, fuel), fuel)
  {
    hide S.RunProgram, Reaches, Match, I.Run, Rigged, FS.Boot, MemoryOK, DivideError;
    var m := MachineOf(fns, b);
    var s := FS.Boot(p, m, entry, base, args);
    match S.RunProgram(p, m.w, entry, base, args, fuel)
    case Ok(v, mem, tr) =>
      var n: nat :| I.Run(m, s, n) == I.Halted(v, mem, tr);
      RunSim(fns, b, s, c1, n);
    case Fail(why, tr) =>
      var n: nat :| I.Run(m, s, n) == I.Faulted(why, tr);
      RunSim(fns, b, s, c1, n);
    case Timeout(tr) =>
      var n: nat :| n >= fuel && I.Run(m, s, n).Running? && I.Run(m, s, n).trace == tr;
      RunSim(fns, b, s, c1, n);
      FollowsBehaves(fns, b, c1, I.Run(m, s, n), n, fuel);
  }
}
