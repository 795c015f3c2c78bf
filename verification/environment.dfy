/**
 * Everything the core talks to but does not implement: the LAMMPS simulator, the two entry points
 * of the CUDA library `sfGpuLib.so`, the wall clock, Python's random stream, the files and the
 * console. A `World` records every call the core makes on them as an `Event`, in order, so that
 * the order of the calls can be stated and proved.
 */
module Environment {
  import opened Outcomes

  /** Atom positions as LAMMPS hands them out: one row per atom, one column per coordinate. */
  type Positions = seq<seq<real>>

  /** Positions as the kernel reads them: one row per coordinate, one column per atom. */
  type Snapshot = seq<seq<real>>

  predicate IsTable(x: seq<seq<real>>, rows: nat, cols: nat) {
    |x| == rows && forall r :: 0 <= r < rows ==> |x[r]| == cols
  }

  /** The LAMMPS input commands the core issues. */
  datatype Command =
    | Include(file: string)
    | Run(steps: int)
    | PairCoeff(epsilon: real, sigma: real, rc: real)

  /** The comment line at the top of a checkpointed S(q) file. */
  datatype Header = Header(step: int, mse: real, epsilon: real, sigma: real, rc: real)

  datatype Event =
    | Start                                   // a LAMMPS instance is created
    | Cmd(command: Command)                   // lmp.command(...)
    | Extract                                 // lmp.numpy.extract_atom("x")
    | Reciprocal                              // the reciprocalSpace entry point is called
    | Kernel(phase: int, nIterAverage: int)   // the structureFactor entry point is called
    | WriteSq(file: string, header: Option<Header>, rows: seq<(real, real)>)
    | Tail(records: int, source: string, target: string)   // os.system("tail -n ...")
    | OpenMse(file: string)                   // the MSE file is created with its header line
    | MseLine(nAccept: int, mse: real, epsilon: real, sigma: real)
    | PrintHeader                             // the progress header on the console
    | PrintStep(step: int, rAccept: real, mse: real, epsilon: real, sigma: real,
                msePass: bool, bolzPass: bool)
    | PrintConverged                          // "precission's limit reached"
    | PrintWallTime(runTime: real, days: int, hours: int, minutes: int, seconds: int)

  /** The events that only write to a file, the shell or the console. */
  predicate IsOutput(e: Event) {
    || e.WriteSq? || e.Tail? || e.OpenMse? || e.MseLine? || e.PrintHeader? || e.PrintStep?
    || e.PrintConverged? || e.PrintWallTime?
  }

  /** The phase codes passed to the structureFactor entry point, in call order. */
  function Phases(es: seq<Event>): seq<int> {
    if es == [] then []
    else (if es[0].Kernel? then [es[0].phase] else []) + Phases(es[1..])
  }

  /** The commands LAMMPS received, in order. */
  function CommandsOf(es: seq<Event>): seq<Command> {
    if es == [] then []
    else (if es[0].Cmd? then [es[0].command] else []) + CommandsOf(es[1..])
  }

  /** How often `e` occurs in `es`. */
  function Count<T(==)>(es: seq<T>, e: T): nat {
    if es == [] then 0 else (if es[0] == e then 1 else 0) + Count(es[1..], e)
  }

  lemma {:induction false} PhasesAppend(a: seq<Event>, b: seq<Event>)
    ensures Phases(a + b) == Phases(a) + Phases(b)
  {
    if a == [] {
      assert a + b == b;
    } else {
      var head := (if a[0].Kernel? then [a[0].phase] else []);
      calc {
        Phases(a + b);
      == { assert (a + b)[0] == a[0]; assert (a + b)[1..] == a[1..] + b; }
        head + Phases(a[1..] + b);
      == { PhasesAppend(a[1..], b); }
        head + (Phases(a[1..]) + Phases(b));
      == { assert head + (Phases(a[1..]) + Phases(b)) == (head + Phases(a[1..])) + Phases(b); }
        Phases(a) + Phases(b);
      }
    }
  }

  lemma {:induction false} CommandsAppend(a: seq<Event>, b: seq<Event>)
    ensures CommandsOf(a + b) == CommandsOf(a) + CommandsOf(b)
  {
    if a == [] {
      assert a + b == b;
    } else {
      var head := (if a[0].Cmd? then [a[0].command] else []);
      calc {
        CommandsOf(a + b);
      == { assert (a + b)[0] == a[0]; assert (a + b)[1..] == a[1..] + b; }
        head + CommandsOf(a[1..] + b);
      == { CommandsAppend(a[1..], b); }
        head + (CommandsOf(a[1..]) + CommandsOf(b));
      == { assert head + (CommandsOf(a[1..]) + CommandsOf(b)) == (head + CommandsOf(a[1..])) + CommandsOf(b); }
        CommandsOf(a) + CommandsOf(b);
      }
    }
  }

  lemma {:induction false} CountAppend<T>(a: seq<T>, b: seq<T>, e: T)
    ensures Count(a + b, e) == Count(a, e) + Count(b, e)
  {
    if a == [] {
      assert a + b == b;
    } else {
      assert (a + b)[1..] == a[1..] + b;
      CountAppend(a[1..], b, e);
    }
  }

  /** The sum of `k` stopwatch readings, starting with reading `from`. */
  function Readings(stopwatch: nat -> real, from: nat, k: nat): real {
    if k == 0 then 0.0 else Readings(stopwatch, from, k - 1) + stopwatch(from + k - 1)
  }

  /** One more reading adds it to the sum. */
  lemma ReadingsStep(stopwatch: nat -> real, from: nat, k: nat)
    ensures Readings(stopwatch, from, k + 1) == Readings(stopwatch, from, k) + stopwatch(from + k)
  {
  }

  /** Readings taken in two runs add up to the readings of the whole run. */
  lemma {:induction false} ReadingsSplit(stopwatch: nat -> real, from: nat, a: nat, b: nat)
    ensures Readings(stopwatch, from, a + b) == Readings(stopwatch, from, a) + Readings(stopwatch, from + a, b)
  {
    if b > 0 {
      ReadingsSplit(stopwatch, from, a, b - 1);
    }
  }

  /** Two runs of readings followed by one more reading. */
  lemma ReadingsThen(stopwatch: nat -> real, from: nat, a: nat, b: nat)
    ensures Readings(stopwatch, from, a + b + 1)
            == Readings(stopwatch, from, a) + Readings(stopwatch, from + a, b) + stopwatch(from + a + b)
  {
    ReadingsSplit(stopwatch, from, a, b);
  }

  /** What the kernel's running sum holds after a call with `phase`: phase 0 allocates and empties
      it, phase 1 starts a new evaluation with this snapshot, phases 2..nIterAverage add one
      snapshot each, and every other code (-1 among them) leaves it alone. */
  function Accumulated(acc: seq<Snapshot>, phase: int, nIterAverage: int, snap: Snapshot): seq<Snapshot> {
    if phase == 0 then []
    else if phase == 1 && 1 <= nIterAverage then [snap]
    else if 1 < phase <= nIterAverage then acc + [snap]
    else acc
  }

  /** The call that normalises the running sum into the caller's S(q) buffer. */
  predicate Finalizes(phase: int, nIterAverage: int) {
    1 <= phase && phase == nIterAverage
  }

  class World {
    // LAMMPS: the number of atoms, the upper box corner, the atom types, and the positions as
    // a function of the commands issued so far
    const nAtoms: nat
    const boxHi: seq<real>
    const types: seq<int>
    const physics: seq<Command> -> Positions
    // sfGpuLib: bin `i` of the averaged S(q) of a list of snapshots
    const kernelSq: (seq<Snapshot>, nat) -> real
    // the k-th stopwatch reading and the k-th value of random()
    const stopwatch: nat -> real
    const random: nat -> real
    // the files the core reads: the lines of a text file, and the rows of a numeric table as
    // numpy.loadtxt parses them
    const textLines: string -> seq<string>
    const tables: string -> seq<seq<real>>

    var log: seq<Event>
    var acc: seq<Snapshot>
    var ticks: nat
    var draws: nat

    ghost predicate Valid() {
      && |boxHi| == 3
      && |types| == nAtoms
      && (forall cmds :: IsTable(physics(cmds), nAtoms, 3))
      && Uniform()
    }

    /** `random()` returns values in [0, 1). */
    ghost predicate Uniform() {
      forall k :: 0.0 <= random(k) < 1.0
    }

    constructor (nAtoms: nat, boxHi: seq<real>, types: seq<int>, physics: seq<Command> -> Positions,
                 kernelSq: (seq<Snapshot>, nat) -> real, stopwatch: nat -> real, random: nat -> real,
                 textLines: string -> seq<string>, tables: string -> seq<seq<real>>)
      requires |boxHi| == 3 && |types| == nAtoms
      requires forall cmds :: IsTable(physics(cmds), nAtoms, 3)
      requires forall k :: 0.0 <= random(k) < 1.0
      ensures Valid()
      ensures this.nAtoms == nAtoms && this.boxHi == boxHi && this.types == types
      ensures this.physics == physics && this.kernelSq == kernelSq
      ensures this.stopwatch == stopwatch && this.random == random
      ensures this.textLines == textLines && this.tables == tables
      ensures log == [] && acc == [] && ticks == 0 && draws == 0
    {
      this.nAtoms, this.boxHi, this.types, this.physics := nAtoms, boxHi, types, physics;
      this.kernelSq, this.stopwatch, this.random := kernelSq, stopwatch, random;
      this.textLines, this.tables := textLines, tables;
      log, acc, ticks, draws := [], [], 0, 0;
    }

    /** The S(q) buffer the kernel writes for the running sum `acc`, `n` bins long. */
    function Spectrum(acc: seq<Snapshot>, n: nat): (sq: seq<real>)
      ensures |sq| == n
    {
      seq(n, (i: nat) => kernelSq(acc, i))
    }

    method StartLammps()
      modifies this`log
      ensures log == old(log) + [Start]
      ensures CommandsOf(log) == CommandsOf(old(log))
    {
      CommandsAppend(log, [Start]);
      assert CommandsOf([Start]) == [];
      log := log + [Start];
    }

    method Send(c: Command)
      modifies this`log
      ensures log == old(log) + [Cmd(c)]
      ensures CommandsOf(log) == CommandsOf(old(log)) + [c]
    {
      CommandsAppend(log, [Cmd(c)]);
      assert CommandsOf([Cmd(c)]) == [c];
      log := log + [Cmd(c)];
    }

    method ExtractPositions() returns (x: Positions)
      modifies this`log
      ensures x == physics(CommandsOf(old(log)))
      ensures log == old(log) + [Extract]
      ensures CommandsOf(log) == CommandsOf(old(log))
    {
      x := physics(CommandsOf(log));
      CommandsAppend(log, [Extract]);
      assert CommandsOf([Extract]) == [];
      log := log + [Extract];
    }

    method ReciprocalSpace()
      modifies this`log
      ensures log == old(log) + [Reciprocal]
    {
      log := log + [Reciprocal];
    }

    /** One call of the structureFactor entry point. It writes the caller's buffer `sQ` only when
        it finalises an evaluation. */
    method StructureFactor(sQ: array<real>, rXYZ: Snapshot, phase: int, nIterAverage: int)
      modifies this`log, this`acc, sQ
      ensures log == old(log) + [Kernel(phase, nIterAverage)]
      ensures acc == Accumulated(old(acc), phase, nIterAverage, rXYZ)
      ensures sQ[..] == if Finalizes(phase, nIterAverage) then Spectrum(acc, sQ.Length) else old(sQ[..])
    {
      log := log + [Kernel(phase, nIterAverage)];
      acc := Accumulated(acc, phase, nIterAverage, rXYZ);
      if Finalizes(phase, nIterAverage) {
        forall i | 0 <= i < sQ.Length {
          sQ[i] := kernelSq(acc, i);
        }
      }
    }

    method Emit(e: Event)
      requires IsOutput(e)
      modifies this`log
      ensures log == old(log) + [e]
    {
      log := log + [e];
    }

    method Elapsed() returns (d: real)
      modifies this`ticks
      ensures d == stopwatch(old(ticks)) && ticks == old(ticks) + 1
    {
      d := stopwatch(ticks);
      ticks := ticks + 1;
    }

    method Random() returns (u: real)
      requires Uniform()
      modifies this`draws
      ensures u == random(old(draws)) && draws == old(draws) + 1
      ensures 0.0 <= u < 1.0
    {
      u := random(draws);
      draws := draws + 1;
    }
  }
}
