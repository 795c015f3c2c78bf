/**
 * The structure-factor evaluator of lennard_jones/python/StructureFactor.py: the q grid, the
 * per-atom scattering weights, the column-major position snapshots, and the phase-coded session
 * with the kernel (0 opens it, 1..nIterAverage accumulate one snapshot each, -1 releases it).
 */
module Evaluator {
  import opened Outcomes
  import opened PythonOps
  import opened Environment

  /** The LAMMPS steps run after every accumulated snapshot. */
  const AdvanceSteps := 1000

  /** The `[sf]`, `[species]`, `[cuda]`, `[lammps]` and `[output]` settings of the input file. */
  datatype SfConfig = SfConfig(
    qMax: real, deltaQ: real, nIterAverage: int,
    speciesChars: seq<string>, bScatteringBySpecie: seq<real>,
    nCudaThreads: int, initLammpsFile: string, ouputFile: string)

  /** The kernel entry point `_sfCudaLib` is bound to. */
  datatype Entry = Unbound | ReciprocalSpaceEntry | StructureFactorEntry

  // ---------------------------------------------------------------- the q grid

  /** `int(qMax / deltaQ) + 1` bins, or ZeroDivisionError for a zero bin width. */
  function QBoxes(qMax: real, deltaQ: real): (r: Result<int>)
    ensures r.Err? <==> deltaQ == 0.0
    ensures r.Err? ==> r.fault == ZeroDivisionError
  {
    if deltaQ == 0.0 then Err(ZeroDivisionError) else Ok(Trunc(qMax / deltaQ) + 1)
  }

  /** For a non-negative qMax and a positive width, the grid has floor(qMax / deltaQ) + 1 bins and
      reaches past qMax by less than one bin: qMax lies in the last bin. */
  lemma GridCoversQMax(qMax: real, deltaQ: real)
    requires 0.0 <= qMax && 0.0 < deltaQ
    ensures var n := QBoxes(qMax, deltaQ).value;
            && n - 1 == (qMax / deltaQ).Floor
            && (n - 1) as real * deltaQ <= qMax < n as real * deltaQ
  {
    var n := Trunc(qMax / deltaQ);
    Between(qMax / deltaQ, n as real, deltaQ, qMax);
    assert (n + 1) as real * deltaQ == n as real * deltaQ + deltaQ;
  }

  /** The bin centres `deltaQ/2 + j*deltaQ`, one per bin. */
  function BinCentres(deltaQ: real, qBoxes: int): (c: seq<real>)
    ensures |c| == if qBoxes < 0 then 0 else qBoxes
  {
    seq(if qBoxes < 0 then 0 else qBoxes, j => deltaQ / 2.0 + j as real * deltaQ)
  }

  lemma ScaleMono(a: real, b: real, y: real)
    requires a <= b && 0.0 < y
    ensures a * y <= b * y
  {
    assert (b - a) * y >= 0.0;
  }

  lemma CentreInBin(deltaQ: real, j: int)
    requires 0.0 < deltaQ
    ensures j as real * deltaQ < deltaQ / 2.0 + j as real * deltaQ < (j + 1) as real * deltaQ
  {
    assert (j + 1) as real * deltaQ == j as real * deltaQ + deltaQ;
  }

  lemma CentreBelow(qMax: real, deltaQ: real, n: int, j: nat)
    requires 0.0 < deltaQ && j < n - 1 && (n - 1) as real * deltaQ <= qMax
    ensures 0.0 < deltaQ / 2.0 + j as real * deltaQ < qMax
  {
    ScaleMono(0.0, j as real, deltaQ);
    ScaleMono((j + 1) as real, (n - 1) as real, deltaQ);
    CentreInBin(deltaQ, j);
  }

  /** Every centre is the middle of its own bin, and every bin that is written out has its centre
      strictly inside (0, qMax). */
  lemma CentresInsideGrid(qMax: real, deltaQ: real)
    requires 0.0 <= qMax && 0.0 < deltaQ
    ensures var c := BinCentres(deltaQ, QBoxes(qMax, deltaQ).value);
            && |c| == QBoxes(qMax, deltaQ).value
            && (forall j :: 0 <= j < |c| ==> j as real * deltaQ < c[j] < (j + 1) as real * deltaQ)
            && (forall j :: 0 <= j < |c| - 1 ==> 0.0 < c[j] < qMax)
  {
    var n := QBoxes(qMax, deltaQ).value;
    var c := BinCentres(deltaQ, n);
    GridCoversQMax(qMax, deltaQ);
    forall j | 0 <= j < |c|
      ensures j as real * deltaQ < c[j] < (j + 1) as real * deltaQ
    {
      CentreInBin(deltaQ, j);
    }
    forall j | 0 <= j < |c| - 1
      ensures 0.0 < c[j] < qMax
    {
      CentreBelow(qMax, deltaQ, n, j);
    }
  }

  /** With a non-zero bin width the centres are pairwise distinct, so the last bin's centre is in
      none of the rows written (they stop one bin short). */
  lemma {:induction false} LastBinNeverWritten(deltaQ: real, qBoxes: int, sq: seq<real>)
    requires deltaQ != 0.0 && 1 <= qBoxes && |sq| == qBoxes
    ensures var c := BinCentres(deltaQ, qBoxes);
            forall row :: row in Rows(c, sq, qBoxes - 1) ==> row.0 != c[qBoxes - 1]
  {
    var c := BinCentres(deltaQ, qBoxes);
    var rows := Rows(c, sq, qBoxes - 1);
    forall row | row in rows
      ensures row.0 != c[qBoxes - 1]
    {
      var j :| 0 <= j < |rows| && rows[j] == row;
      var d := (qBoxes - 1 - j) as real;
      assert d > 0.0;
      assert c[qBoxes - 1] - c[j] == d * deltaQ by {
        assert (qBoxes - 1) as real * deltaQ - j as real * deltaQ == d * deltaQ;
      }
      assert d * deltaQ != 0.0;
    }
  }

  /** The rows `(centre, S(q))` written for the first `n` bins (`range(n)` is empty for n < 0). */
  function Rows(centres: seq<real>, sq: seq<real>, n: int): (rows: seq<(real, real)>)
    requires n <= |centres| && n <= |sq|
  {
    seq(if n < 0 then 0 else n, i requires 0 <= i < n => (centres[i], sq[i]))
  }

  // ---------------------------------------------------------------- scattering weights

  /** Every atom type names a species: `bScatteringBySpecie[t - 1]` is a valid Python index. */
  predicate TypesIndexable(tAtoms: seq<int>, bBySpecies: seq<real>, nAtoms: nat) {
    nAtoms <= |tAtoms| && forall i :: 0 <= i < nAtoms ==> -|bBySpecies| < tAtoms[i] <= |bBySpecies|
  }

  /** The per-atom weights `bVector[i] = bScatteringBySpecie[tAtoms[i] - 1]`, with Python's
      indexing: a type t in 1..nSpecies picks species t, a type in 1-nSpecies..0 wraps around
      to the end, and any other type raises IndexError. */
  method Weights(tAtoms: seq<int>, bBySpecies: seq<real>, nAtoms: nat) returns (r: Result<seq<real>>)
    ensures r.Ok? <==> TypesIndexable(tAtoms, bBySpecies, nAtoms)
    ensures r.Err? ==> r.fault == IndexError
    ensures r.Ok? ==> |r.value| == nAtoms
    ensures r.Ok? ==> forall i :: 0 <= i < nAtoms && 1 <= tAtoms[i] ==> r.value[i] == bBySpecies[tAtoms[i] - 1]
    ensures r.Ok? ==> forall i :: 0 <= i < nAtoms && tAtoms[i] < 1 ==>
                        r.value[i] == bBySpecies[|bBySpecies| + tAtoms[i] - 1]
  {
    var bVector := new real[nAtoms];
    var i := 0;
    while i < nAtoms
      invariant 0 <= i <= nAtoms
      invariant i <= |tAtoms| && forall k :: 0 <= k < i ==> -|bBySpecies| < tAtoms[k] <= |bBySpecies|
      invariant forall k :: 0 <= k < i ==> Index(bBySpecies, tAtoms[k] - 1) == Ok(bVector[k])
    {
      var t := Index(tAtoms, i);
      if t.Err? {
        return Err(IndexError);
      }
      var b := Index(bBySpecies, t.value - 1);
      if b.Err? {
        return Err(IndexError);
      }
      bVector[i] := b.value;
      i := i + 1;
    }
    r := Ok(bVector[..]);
  }

  // ---------------------------------------------------------------- snapshots

  /** `numpy.array(x.T, order="F")`: the coordinates of every atom become columns. */
  function Transpose(x: Positions, nDim: nat): Snapshot {
    seq(nDim, (d: nat) => seq(|x|, a requires 0 <= a < |x| => if d < |x[a]| then x[a][d] else 0.0))
  }

  /** The snapshot has one row per coordinate and one column per atom, and entry (d, a) is
      coordinate d of atom a. */
  lemma TransposeEntries(x: Positions, nDim: nat)
    requires IsTable(x, |x|, nDim)
    ensures var t := Transpose(x, nDim);
            && IsTable(t, nDim, |x|)
            && forall d, a :: 0 <= d < nDim && 0 <= a < |x| ==> t[d][a] == x[a][d]
  {
  }

  /** Transposing twice gives the positions back. */
  lemma TransposeTwice(x: Positions, nDim: nat)
    requires IsTable(x, |x|, nDim)
    ensures Transpose(Transpose(x, nDim), |x|) == x
  {
    var t := Transpose(x, nDim);
    var back := Transpose(t, |x|);
    TransposeEntries(x, nDim);
    TransposeEntries(t, |x|);
    assert |back| == |x|;
    forall a | 0 <= a < |x|
      ensures back[a] == x[a]
    {
      assert |back[a]| == |x[a]|;
      forall d | 0 <= d < nDim
        ensures back[a][d] == x[a][d]
      {
        assert back[a][d] == t[d][a];
      }
    }
  }

  // ---------------------------------------------------------------- one evaluation

  /** The `run 1000` commands of the first k accumulate steps. */
  function Advances(k: nat): (cmds: seq<Command>)
    ensures |cmds| == k
  {
    if k == 0 then [] else Advances(k - 1) + [Run(AdvanceSteps)]
  }

  /** The events of accumulate step k: the kernel call, the advance and the extraction. */
  function Step(k: int, n: int): seq<Event> {
    [Kernel(k, n), Cmd(Run(AdvanceSteps)), Extract]
  }

  lemma StepEvents(k: int, n: int)
    ensures Phases(Step(k, n)) == [k]
    ensures CommandsOf(Step(k, n)) == [Run(AdvanceSteps)]
    ensures Count(Step(k, n), Cmd(Run(AdvanceSteps))) == 1
    ensures Count(Step(k, n), Extract) == 1
  {
    var s := Step(k, n);
    var run, last := Cmd(Run(AdvanceSteps)), Extract;
    assert s[1..] == [run, last] && [run, last][1..] == [last] && [last][1..] == [];
    assert Phases([last]) == [] && CommandsOf([last]) == [];
    assert Count([last], run) == 0 && Count([last], last) == 1;
    assert Phases([run, last]) == [] && CommandsOf([run, last]) == [Run(AdvanceSteps)];
    assert Count([run, last], run) == 1 && Count([run, last], last) == 1;
  }

  /** The events of accumulate steps 1..k of an evaluation averaging n snapshots: one kernel call,
      one `run 1000` and one extraction each. */
  function Accumulations(k: nat, n: int): seq<Event> {
    if k == 0 then [] else Accumulations(k - 1, n) + Step(k, n)
  }

  /** The events of one evaluation (`runStructureFactor`). */
  function Evaluation(n: int): seq<Event> {
    [Extract] + Accumulations(if n < 0 then 0 else n, n)
  }

  /** The phase codes of one evaluation: 1, 2, ..., n. */
  function Block(n: int): (b: seq<int>)
    ensures |b| == if n < 0 then 0 else n
  {
    seq(if n < 0 then 0 else n, i => i + 1)
  }

  /** The snapshots the kernel accumulates in an evaluation that starts after the commands `cmds`:
      the k-th is taken after k advances. */
  function Snapshots(physics: seq<Command> -> Positions, cmds: seq<Command>, k: nat): seq<Snapshot> {
    if k == 0 then [] else Snapshots(physics, cmds, k - 1) + [Transpose(physics(cmds + Advances(k - 1)), 3)]
  }

  lemma {:induction false} AccumulationsPhases(k: nat, n: int)
    ensures Phases(Accumulations(k, n)) == seq(k, i => i + 1)
  {
    if k > 0 {
      AccumulationsPhases(k - 1, n);
      PhasesAppend(Accumulations(k - 1, n), Step(k, n));
      StepEvents(k, n);
      assert seq(k, i => i + 1) == seq(k - 1, i => i + 1) + [k];
    }
  }

  lemma {:induction false} AccumulationsCounts(k: nat, n: int)
    ensures |Accumulations(k, n)| == 3 * k
    ensures Count(Accumulations(k, n), Cmd(Run(AdvanceSteps))) == k
    ensures Count(Accumulations(k, n), Extract) == k
  {
    if k > 0 {
      AccumulationsCounts(k - 1, n);
      StepEvents(k, n);
      CountAppend(Accumulations(k - 1, n), Step(k, n), Cmd(Run(AdvanceSteps)));
      CountAppend(Accumulations(k - 1, n), Step(k, n), Extract);
    }
  }

  lemma {:induction false} KernelCallsAdvance(k: nat, n: int)
    ensures forall i :: 0 <= i < |Accumulations(k, n)| && Accumulations(k, n)[i].Kernel? ==>
              && Accumulations(k, n)[i].nIterAverage == n
              && i + 1 < |Accumulations(k, n)| && Accumulations(k, n)[i + 1] == Cmd(Run(AdvanceSteps))
  {
    if k > 0 {
      KernelCallsAdvance(k - 1, n);
      var a := Accumulations(k - 1, n);
      assert Accumulations(k, n) == a + Step(k, n);
      forall i | 0 <= i < |a + Step(k, n)| && (a + Step(k, n))[i].Kernel?
        ensures (a + Step(k, n))[i].nIterAverage == n
        ensures i + 1 < |a + Step(k, n)| && (a + Step(k, n))[i + 1] == Cmd(Run(AdvanceSteps))
      {
        if i < |a| {
          assert (a + Step(k, n))[i] == a[i];
        } else {
          assert i == |a|;
        }
      }
    }
  }

  /** The commands an evaluation sends, after those sent before it, are its advances. */
  lemma EvaluationCommands(log0: seq<Event>, k: nat, n: int)
    ensures CommandsOf(log0 + [Extract] + Accumulations(k, n)) == CommandsOf(log0) + Advances(k)
  {
    CommandsAppend(log0 + [Extract], Accumulations(k, n));
    CommandsAppend(log0, [Extract]);
    assert CommandsOf([Extract]) == [];
    AccumulationsCommands(k, n);
  }

  lemma {:induction false} AccumulationsCommands(k: nat, n: int)
    ensures CommandsOf(Accumulations(k, n)) == Advances(k)
  {
    if k > 0 {
      AccumulationsCommands(k - 1, n);
      CommandsAppend(Accumulations(k - 1, n), Step(k, n));
      StepEvents(k, n);
    }
  }

  /** One evaluation calls the kernel with the phase codes 1, 2, ..., nIterAverage in ascending
      order, each with the same nIterAverage; it runs `run 1000` once per call, right after it,
      and extracts the positions nIterAverage + 1 times, first before any advance. */
  lemma EvaluationProtocol(n: int)
    ensures Phases(Evaluation(n)) == Block(n)
    ensures Count(Evaluation(n), Cmd(Run(AdvanceSteps))) == |Block(n)|
    ensures Count(Evaluation(n), Extract) == |Block(n)| + 1
    ensures Evaluation(n)[0] == Extract
    ensures forall i :: 0 <= i < |Evaluation(n)| && Evaluation(n)[i].Kernel? ==>
              && Evaluation(n)[i].nIterAverage == n
              && i + 1 < |Evaluation(n)| && Evaluation(n)[i + 1] == Cmd(Run(AdvanceSteps))
  {
    var k := if n < 0 then 0 else n;
    var acc := Accumulations(k, n);
    assert Evaluation(n) == [Extract] + acc;
    AccumulationsPhases(k, n);
    PhasesAppend([Extract], acc);
    assert Phases([Extract]) == [];
    AccumulationsCounts(k, n);
    CountAppend([Extract], acc, Cmd(Run(AdvanceSteps)));
    CountAppend([Extract], acc, Extract);
    assert Count([Extract], Extract) == 1;
    assert Count([Extract], Cmd(Run(AdvanceSteps))) == 0;
    KernelCallsAdvance(k, n);
    forall i | 0 <= i < |[Extract] + acc| && ([Extract] + acc)[i].Kernel?
      ensures ([Extract] + acc)[i].nIterAverage == n
      ensures i + 1 < |[Extract] + acc| && ([Extract] + acc)[i + 1] == Cmd(Run(AdvanceSteps))
    {
      assert ([Extract] + acc)[i] == acc[i - 1];
      assert ([Extract] + acc)[i + 1] == acc[i];
    }
  }

  // ---------------------------------------------------------------- the evaluator object

  class StructureFactor {
    const world: World
    // configuration (loadConfigFile)
    var qMax: real
    var deltaQ: real
    var nIterAverage: int
    var speciesChars: seq<string>
    var bScatteringBySpecie: seq<real>
    var nCudaThreads: int
    var initLammpsFile: string
    var ouputFile: string
    // derived state (initVariables) and the kernel buffers
    var nSpecies: int
    var side: seq<real>
    var nDim: int
    var qBoxes: int
    var sQ: array<real>
    var sQlen: int
    var deltaQVector: seq<real>
    var rXYZ: Snapshot
    var tAtoms: seq<int>
    var nAtoms: int
    var bVector: seq<real>
    var sfCudaLib: Entry

    function Config(): SfConfig
      reads this
    {
      SfConfig(qMax, deltaQ, nIterAverage, speciesChars, bScatteringBySpecie, nCudaThreads,
               initLammpsFile, ouputFile)
    }

    /** What initVariables establishes about the q grid and the S(q) buffer. */
    ghost predicate GridReady()
      reads this`qMax, this`deltaQ, this`bScatteringBySpecie, this`nSpecies, this`side, this`nDim,
            this`qBoxes, this`sQ, this`sQlen, this`deltaQVector
    {
      && QBoxes(qMax, deltaQ) == Ok(qBoxes) && 0 <= qBoxes
      && sQ.Length == qBoxes && sQlen == qBoxes - 1
      && deltaQVector == BinCentres(deltaQ, qBoxes)
      && nSpecies == |bScatteringBySpecie|
      && side == world.boxHi && nDim == |side|
    }

    /** What initVariables establishes about the atoms. */
    ghost predicate AtomsReady()
      reads this`tAtoms, this`nAtoms, this`bVector
    {
      tAtoms == world.types && nAtoms == world.nAtoms && |bVector| == nAtoms
    }

    /** The lengths the output rows rely on: one centre per bin, and one bin fewer written. */
    predicate Shaped()
      reads this`sQ, this`sQlen, this`deltaQVector
    {
      sQlen == sQ.Length - 1 && |deltaQVector| == sQ.Length
    }

    ghost predicate Ready()
      reads this`qMax, this`deltaQ, this`bScatteringBySpecie, this`nSpecies, this`side, this`nDim,
            this`qBoxes, this`sQ, this`sQlen, this`deltaQVector, this`tAtoms, this`nAtoms, this`bVector
    {
      world.Valid() && GridReady() && AtomsReady()
    }

    constructor (world: World)
      ensures this.world == world && sfCudaLib == Unbound
    {
      this.world := world;
      qMax, deltaQ, nIterAverage := 0.0, 0.0, 0;
      speciesChars, bScatteringBySpecie, nCudaThreads := [], [], 0;
      initLammpsFile, ouputFile := "", "";
      nSpecies, side, nDim, qBoxes := 0, [], 0, 0;
      sQ := new real[0];
      sQlen, deltaQVector, rXYZ := 0, [], [];
      tAtoms, nAtoms, bVector := [], 0, [];
      sfCudaLib := Unbound;
    }

    method LoadConfigFile(cfg: SfConfig) returns (elapsed: real)
      modifies this`qMax, this`deltaQ, this`nIterAverage, this`speciesChars,
               this`bScatteringBySpecie, this`nCudaThreads, this`initLammpsFile, this`ouputFile,
               world`ticks
      ensures Config() == cfg
      ensures elapsed == world.stopwatch(old(world.ticks)) && world.ticks == old(world.ticks) + 1
    {
      qMax, deltaQ, nIterAverage := cfg.qMax, cfg.deltaQ, cfg.nIterAverage;
      speciesChars, bScatteringBySpecie := cfg.speciesChars, cfg.bScatteringBySpecie;
      nCudaThreads, initLammpsFile, ouputFile := cfg.nCudaThreads, cfg.initLammpsFile, cfg.ouputFile;
      elapsed := world.Elapsed();
    }

    method InitLammps() returns (elapsed: real)
      modifies world`log, world`ticks
      ensures world.log == old(world.log) + [Start, Cmd(Include(initLammpsFile))]
      ensures CommandsOf(world.log) == CommandsOf(old(world.log)) + [Include(initLammpsFile)]
      ensures elapsed == world.stopwatch(old(world.ticks)) && world.ticks == old(world.ticks) + 1
    {
      world.StartLammps();
      world.Send(Include(initLammpsFile));
      elapsed := world.Elapsed();
    }

    /** The grid, the S(q) buffer, the first snapshot and the weights. It fails as the source does:
        on a zero bin width, on a negative bin count and on an atom type that indexes no species. */
    method InitVariables() returns (r: Result<real>)
      requires world.Valid()
      modifies this`nSpecies, this`side, this`nDim, this`qBoxes, this`sQ, this`sQlen,
               this`deltaQVector, this`rXYZ, this`tAtoms, this`nAtoms, this`bVector,
               world`log, world`ticks
      ensures r.Err? <==> || QBoxes(qMax, deltaQ).Err? || QBoxes(qMax, deltaQ).value < 0
                          || !TypesIndexable(world.types, bScatteringBySpecie, world.nAtoms)
      ensures r.Ok? ==> Ready() && fresh(sQ)
      ensures r.Ok? ==> rXYZ == Transpose(world.physics(CommandsOf(world.log)), 3)
      ensures r.Ok? ==> forall i :: 0 <= i < nAtoms && 1 <= tAtoms[i] ==>
                          bVector[i] == bScatteringBySpecie[tAtoms[i] - 1]
      ensures r.Ok? ==> world.log == old(world.log) + [Extract]
      ensures r.Ok? ==> CommandsOf(world.log) == CommandsOf(old(world.log))
      ensures r.Ok? ==> r.value == world.stopwatch(old(world.ticks)) && world.ticks == old(world.ticks) + 1
    {
      var fault := InitGrid();
      if fault.Some? {
        return Err(fault.value);
      }
      LammpsExtractAtoms();
      fault := InitWeights();
      if fault.Some? {
        return Err(fault.value);
      }
      var elapsed := world.Elapsed();
      r := Ok(elapsed);
    }

    /** The first half of initVariables: the species count, the box, the bin count, the S(q)
        buffer and the bin centres. */
    method InitGrid() returns (fault: Option<Fault>)
      modifies this`nSpecies, this`side, this`nDim, this`qBoxes, this`sQ, this`sQlen, this`deltaQVector
      ensures fault.Some? <==> QBoxes(qMax, deltaQ).Err? || QBoxes(qMax, deltaQ).value < 0
      ensures fault.None? ==> GridReady() && fresh(sQ)
    {
      nSpecies := |bScatteringBySpecie|;
      side := world.boxHi;
      nDim := |side|;
      var boxes := QBoxes(qMax, deltaQ);
      if boxes.Err? {
        return Some(boxes.fault);
      }
      qBoxes := boxes.value;
      if qBoxes < 0 {
        return Some(ValueError);
      }
      sQ := new real[qBoxes];
      sQlen := qBoxes - 1;
      deltaQVector := BinCentres(deltaQ, qBoxes);
      fault := None;
    }

    /** The second half of initVariables: the atom types and the scattering weight of every atom. */
    method InitWeights() returns (fault: Option<Fault>)
      modifies this`tAtoms, this`nAtoms, this`bVector
      ensures fault.Some? <==> !TypesIndexable(world.types, bScatteringBySpecie, world.nAtoms)
      ensures fault.None? ==> AtomsReady()
      ensures fault.None? ==> forall i :: 0 <= i < nAtoms && 1 <= tAtoms[i] ==>
                                bVector[i] == bScatteringBySpecie[tAtoms[i] - 1]
    {
      tAtoms := world.types;
      nAtoms := world.nAtoms;
      var weights := Weights(tAtoms, bScatteringBySpecie, nAtoms);
      if weights.Err? {
        return Some(weights.fault);
      }
      bVector := weights.value;
      fault := None;
    }

    /** Binds `_sfCudaLib` to the reciprocalSpace entry point and calls it once. */
    method ReciprocalSpace() returns (elapsed: real)
      modifies this`sfCudaLib, world`log, world`ticks
      ensures sfCudaLib == ReciprocalSpaceEntry
      ensures world.log == old(world.log) + [Reciprocal]
      ensures elapsed == world.stopwatch(old(world.ticks)) && world.ticks == old(world.ticks) + 1
    {
      sfCudaLib := ReciprocalSpaceEntry;
      elapsed := world.Elapsed();
      world.ReciprocalSpace();
    }

    /** Rebinds `_sfCudaLib` to the structureFactor entry point and opens the session (phase 0). */
    method InitStructureFactor() returns (elapsed: real)
      requires Ready()
      modifies this`sfCudaLib, world`log, world`acc, world`ticks, sQ
      ensures sfCudaLib == StructureFactorEntry
      ensures world.log == old(world.log) + [Kernel(0, nIterAverage)]
      ensures world.acc == [] && sQ[..] == old(sQ[..])
      ensures elapsed == world.stopwatch(old(world.ticks)) && world.ticks == old(world.ticks) + 1
    {
      sfCudaLib := StructureFactorEntry;
      elapsed := world.Elapsed();
      world.StructureFactor(sQ, rXYZ, 0, nIterAverage);
    }

    /** One evaluation: extract, then for iter = 1..nIterAverage one kernel call with phase `iter`,
        one `run 1000` and one extraction. The kernel's running sum then holds exactly this
        evaluation's nIterAverage snapshots, the last call has written their S(q) to `sQ`, and the
        stored snapshot is the configuration after all nIterAverage advances. */
    method RunStructureFactor() returns (elapsed: real)
      requires sfCudaLib == StructureFactorEntry
      modifies this`rXYZ, world`log, world`acc, world`ticks, sQ
      ensures world.log == old(world.log) + Evaluation(nIterAverage)
      ensures 1 <= nIterAverage ==>
                && world.acc == Snapshots(world.physics, CommandsOf(old(world.log)), nIterAverage)
                && sQ[..] == world.Spectrum(world.acc, sQ.Length)
      ensures nIterAverage < 1 ==> world.acc == old(world.acc) && sQ[..] == old(sQ[..])
      ensures rXYZ == Transpose(world.physics(CommandsOf(old(world.log)) + Advances(if nIterAverage < 1 then 0 else nIterAverage)), 3)
      ensures elapsed == world.stopwatch(old(world.ticks)) && world.ticks == old(world.ticks) + 1
    {
      Sample();
      elapsed := world.Elapsed();
    }

    /** The body of `runStructureFactor` between its two clock readings. */
    method Sample()
      modifies this`rXYZ, world`log, world`acc, sQ
      ensures world.log == old(world.log) + Evaluation(nIterAverage)
      ensures 1 <= nIterAverage ==>
                && world.acc == Snapshots(world.physics, CommandsOf(old(world.log)), nIterAverage)
                && sQ[..] == world.Spectrum(world.acc, sQ.Length)
      ensures nIterAverage < 1 ==> world.acc == old(world.acc) && sQ[..] == old(sQ[..])
      ensures rXYZ == Transpose(world.physics(CommandsOf(old(world.log)) + Advances(if nIterAverage < 1 then 0 else nIterAverage)), 3)
    {
      ghost var log0, acc0, sq0 := world.log, world.acc, sQ[..];
      LammpsExtractAtoms();
      assert CommandsOf(log0) + Advances(0) == CommandsOf(log0);
      var iter := 1;
      while iter <= nIterAverage
        invariant 1 <= iter <= if nIterAverage < 1 then 1 else nIterAverage + 1
        invariant InEvaluation(log0, acc0, sq0, iter - 1)
      {
        Accumulate(iter, log0, acc0, sq0);
        iter := iter + 1;
      }
      Evaluated(log0, acc0, sq0);
    }

    /** The state at the end of the evaluation loop. */
    lemma Evaluated(log0: seq<Event>, acc0: seq<Snapshot>, sq0: seq<real>)
      requires InEvaluation(log0, acc0, sq0, if nIterAverage < 1 then 0 else nIterAverage)
      ensures world.log == log0 + Evaluation(nIterAverage)
      ensures 1 <= nIterAverage ==>
                && world.acc == Snapshots(world.physics, CommandsOf(log0), nIterAverage)
                && sQ[..] == world.Spectrum(world.acc, sQ.Length)
      ensures nIterAverage < 1 ==> world.acc == acc0 && sQ[..] == sq0
      ensures rXYZ == Transpose(world.physics(CommandsOf(log0) + Advances(if nIterAverage < 1 then 0 else nIterAverage)), 3)
    {
    }

    /** The state after the first extraction and k accumulate steps of an evaluation that started
        with the trace `log0`, the running sum `acc0` and the S(q) buffer `sq0`. */
    ghost predicate InEvaluation(log0: seq<Event>, acc0: seq<Snapshot>, sq0: seq<real>, k: nat)
      reads this`rXYZ, this`nIterAverage, this`sQ, sQ, world`log, world`acc
    {
      && world.log == log0 + [Extract] + Accumulations(k, nIterAverage)
      && rXYZ == Transpose(world.physics(CommandsOf(log0) + Advances(k)), 3)
      && world.acc == (if k == 0 then acc0 else Snapshots(world.physics, CommandsOf(log0), k))
      && sQ[..] == if k == nIterAverage && 1 <= k then world.Spectrum(world.acc, sQ.Length) else sq0
    }

    /** One pass of the evaluation loop: the kernel call with phase `iter` on the current snapshot,
        `run 1000`, and the snapshot of the advanced configuration. */
    method Accumulate(iter: int, ghost log0: seq<Event>, ghost acc0: seq<Snapshot>, ghost sq0: seq<real>)
      requires 1 <= iter <= nIterAverage
      requires InEvaluation(log0, acc0, sq0, iter - 1)
      modifies this`rXYZ, world`log, world`acc, sQ
      ensures InEvaluation(log0, acc0, sq0, iter)
    {
      world.StructureFactor(sQ, rXYZ, iter, nIterAverage);
      world.Send(Run(AdvanceSteps));
      LammpsExtractAtoms();
      EvaluationCommands(log0, iter, nIterAverage);
    }

    /** Releases the session (phase -1); the S(q) buffer stays as the last evaluation left it. */
    method CleanStructureFactor() returns (elapsed: real)
      requires sfCudaLib == StructureFactorEntry
      modifies world`log, world`acc, world`ticks, sQ
      ensures world.log == old(world.log) + [Kernel(-1, nIterAverage)]
      ensures world.acc == old(world.acc) && sQ[..] == old(sQ[..])
      ensures elapsed == world.stopwatch(old(world.ticks)) && world.ticks == old(world.ticks) + 1
    {
      world.StructureFactor(sQ, rXYZ, -1, nIterAverage);
      elapsed := world.Elapsed();
    }

    /** The rows `deltaQVector[i] sQ[i]` for i in range(sQlen): every bin but the last. */
    method SqRows() returns (rows: seq<(real, real)>)
      requires Shaped()
      ensures rows == Rows(deltaQVector, sQ[..], sQlen)
    {
      rows := [];
      var i := 0;
      while i < sQlen
        invariant 0 <= i && (i <= sQlen || i == 0)
        invariant rows == Rows(deltaQVector, sQ[..], i)
      {
        rows := rows + [(deltaQVector[i], sQ[i])];
        i := i + 1;
      }
    }

    method WriteOutput() returns (elapsed: real)
      requires Shaped()
      modifies world`log, world`ticks
      ensures world.log == old(world.log) + [WriteSq(ouputFile, None, Rows(deltaQVector, sQ[..], sQlen))]
      ensures elapsed == world.stopwatch(old(world.ticks)) && world.ticks == old(world.ticks) + 1
    {
      var rows := SqRows();
      world.Emit(WriteSq(ouputFile, None, rows));
      elapsed := world.Elapsed();
    }

    /** `_lammpsExtractAtoms`: the current positions, transposed. */
    method LammpsExtractAtoms()
      modifies this`rXYZ, world`log
      ensures rXYZ == Transpose(world.physics(CommandsOf(world.log)), 3)
      ensures world.log == old(world.log) + [Extract]
      ensures CommandsOf(world.log) == CommandsOf(old(world.log))
    {
      var x := world.ExtractPositions();
      rXYZ := Transpose(x, 3);
    }
  }
}
