/**
 * lennard_jones/python/StructureFactorMonteCarlo.py: the Monte Carlo fit of the Lennard-Jones
 * parameters epsilon and sigma to a reference S(q). The class extends the evaluator of
 * evaluator.dfy; the model holds the evaluator as a field (`sf`) and calls it where the source
 * calls `super()` or an inherited method.
 */
module MonteCarlo {
  import opened Outcomes
  import opened PythonOps
  import opened Environment
  import opened Evaluator
  import opened Search

  /** The keys of the `[mc]` and `[output]` sections, on top of the evaluator's. */
  datatype McConfig = McConfig(
    sf: SfConfig, maxIter: int, msePrecission: real, kt: real,
    deltaEpsilon: real, minEpsilon: real, maxEpsilon: real,
    deltaSigma: real, minSigma: real, maxSigma: real,
    gdrRecords: int, gdrInputFile: string, gdrOutputFile: string,
    sfRefFile: string, outputMseFile: string)

  // ---------------------------------------------------------------- the reference S(q)

  /** `numpy.loadtxt(file)[:, 1]`: the second column of a table of at least two rows of equal
      length. A file of a single row loads as a 1-D array and cannot be indexed by two indices;
      a table of fewer than two columns has no second column; both raise IndexError. Rows of
      different lengths make loadtxt raise ValueError. */
  function SecondColumn(table: seq<seq<real>>): (r: Result<seq<real>>)
    ensures r.Ok? <==> 2 <= |table| && (forall i :: 0 <= i < |table| ==> |table[i]| == |table[0]|) && 2 <= |table[0]|
    ensures r.Ok? ==> |r.value| == |table| && forall i :: 0 <= i < |table| ==> r.value[i] == table[i][1]
  {
    if exists i :: 0 <= i < |table| && |table[i]| != |table[0]| then Err(ValueError)
    else if |table| < 2 || |table[0]| < 2 then Err(IndexError)
    else Ok(seq(|table|, i requires 0 <= i < |table| => table[i][1]))
  }

  // ---------------------------------------------------------------- the pair_coeff line

  datatype Coefficients = Coefficients(epsilon: real, sigma: real, rc: real)

  const PairCoeffKeyword := "pair_coeff"

  /** `float(fields[3])`, `float(fields[4])`, `float(fields[5])` of a split `pair_coeff` line, in
      that order: a missing field raises IndexError, a malformed one ValueError. */
  function PairCoeffFields(parse: string -> Option<real>, line: string): (r: Result<Coefficients>)
    ensures var w := Split(line);
            r.Ok? <==> 6 <= |w| && parse(w[3]).Some? && parse(w[4]).Some? && parse(w[5]).Some?
    ensures var w := Split(line);
            r.Ok? ==> r.value == Coefficients(parse(w[3]).value, parse(w[4]).value, parse(w[5]).value)
    ensures var w := Split(line);
            r.Err? ==> (r.fault == IndexError <==> |w| < 6 && forall k :: 3 <= k < |w| ==> parse(w[k]).Some?)
  {
    var w := Split(line);
    if |w| <= 3 then Err(IndexError)
    else if parse(w[3]).None? then Err(ValueError)
    else if |w| <= 4 then Err(IndexError)
    else if parse(w[4]).None? then Err(ValueError)
    else if |w| <= 5 then Err(IndexError)
    else if parse(w[5]).None? then Err(ValueError)
    else Ok(Coefficients(parse(w[3]).value, parse(w[4]).value, parse(w[5]).value))
  }

  predicate IsPairCoeff(line: string) {
    StartsWith(line, PairCoeffKeyword)
  }

  /** The coefficients after reading `lines` in order, starting from `init`: every `pair_coeff`
      line overwrites all three, and the first malformed one ends the read. */
  function ScanPairCoeff(parse: string -> Option<real>, lines: seq<string>, init: Coefficients): Result<Coefficients>
  {
    if lines == [] then Ok(init)
    else
      match ScanPairCoeff(parse, lines[..|lines| - 1], init)
      case Err(f) => Err(f)
      case Ok(c) =>
        var line := lines[|lines| - 1];
        if IsPairCoeff(line) then PairCoeffFields(parse, line) else Ok(c)
  }

  /** Line `i` is the last `pair_coeff` line of the file. */
  predicate LastPairCoeff(lines: seq<string>, i: int)
    requires 0 <= i < |lines|
  {
    IsPairCoeff(lines[i]) && forall j :: i < j < |lines| ==> !IsPairCoeff(lines[j])
  }

  /** A `pair_coeff` line whose fields cannot be read. */
  predicate Malformed(parse: string -> Option<real>, line: string) {
    IsPairCoeff(line) && PairCoeffFields(parse, line).Err?
  }

  /** The read fails exactly when some `pair_coeff` line is malformed. */
  lemma {:induction false} ScanFails(parse: string -> Option<real>, lines: seq<string>, init: Coefficients)
    ensures ScanPairCoeff(parse, lines, init).Err? <==> exists i :: 0 <= i < |lines| && Malformed(parse, lines[i])
  {
    if lines != [] {
      var n := |lines| - 1;
      var front := lines[..n];
      ScanFails(parse, front, init);
      if ScanPairCoeff(parse, front, init).Err? {
        var i :| 0 <= i < n && Malformed(parse, front[i]);
        assert Malformed(parse, lines[i]);
      } else if !Malformed(parse, lines[n]) {
        forall i | 0 <= i < |lines|
          ensures !Malformed(parse, lines[i])
        {
          if i < n {
            assert lines[i] == front[i];
          }
        }
      }
    }
  }

  /** Without a `pair_coeff` line the starting values stay. */
  lemma {:induction false} ScanUntouched(parse: string -> Option<real>, lines: seq<string>, init: Coefficients)
    requires forall i :: 0 <= i < |lines| ==> !IsPairCoeff(lines[i])
    ensures ScanPairCoeff(parse, lines, init) == Ok(init)
  {
    if lines != [] {
      var n := |lines| - 1;
      assert forall i :: 0 <= i < n ==> lines[..n][i] == lines[i];
      ScanUntouched(parse, lines[..n], init);
    }
  }

  /** When the read succeeds, the last `pair_coeff` line decides all three coefficients. */
  lemma {:induction false} ScanLastWins(parse: string -> Option<real>, lines: seq<string>, init: Coefficients, i: nat)
    requires i < |lines| && LastPairCoeff(lines, i)
    requires ScanPairCoeff(parse, lines, init).Ok?
    ensures ScanPairCoeff(parse, lines, init) == PairCoeffFields(parse, lines[i])
  {
    var n := |lines| - 1;
    if i < n {
      var front := lines[..n];
      assert !IsPairCoeff(lines[n]);
      assert front[i] == lines[i];
      assert LastPairCoeff(front, i) by {
        forall j | i < j < n
          ensures !IsPairCoeff(front[j])
        {
          assert front[j] == lines[j];
        }
      }
      ScanLastWins(parse, front, init, i);
    }
  }

  // ---------------------------------------------------------------- the run

  /** The draws of one pass: two proposals, and the acceptance draw unless the candidate improved. */
  lemma DrawSteps(su: Setup, s: Point, t: Trial, random: nat -> real, d0: nat, d1: nat)
    requires Iterate(su, s, t).Ok?
    requires t.uEpsilon == random(d0) && t.uSigma == random(d0 + 1)
    requires var m := Iterate(su, s, t).value;
             if m.verdict.msePass then d1 == d0 + 2 else d1 == d0 + 3 && t.uAccept == random(d0 + 2)
    ensures d1 == d0 + |Drawn(t, Iterate(su, s, t).value)|
    ensures DrawnFrom(random, d0, Drawn(t, Iterate(su, s, t).value))
  {
  }

  /** How the steps of one pass compose into `Iterate` and `Events`. */
  lemma IterationSteps(su: Setup, s: Point, t: Trial, epsilonTmp: real, sigmaTmp: real, mseTmp: real,
                       v: Verdict, a: Point, log0: seq<Event>, log1: seq<Event>, log2: seq<Event>)
    requires GridShaped(su) && |t.spectrum| == su.qBoxes
    requires epsilonTmp == Propose(s.epsilon, su.epsilonBounds, t.uEpsilon)
    requires sigmaTmp == Propose(s.sigma, su.sigmaBounds, t.uSigma)
    requires Score(su.builtins, su.sQref, Prefix(t.spectrum, su.sQlen)) == Ok(mseTmp)
    requires Judge(s.mse, mseTmp, su.kt, t.uAccept, su.builtins.exp) == v
    requires a == Advance(s, epsilonTmp, sigmaTmp, mseTmp, v)
    requires log1 == log0 + [Cmd(PairCoeff(epsilonTmp, sigmaTmp, su.rc)), Cmd(Run(EquilibrationSteps))]
                    + Evaluation(su.nIterAverage)
    requires log2 == log1 + Bookkeeping(su, a.mseMin < s.mseMin, Rows(su.centres, t.spectrum, su.sQlen), a, v)
    ensures Iterate(su, s, t) == Ok(Move(epsilonTmp, sigmaTmp, mseTmp, v, a))
    ensures log2 == log0 + Events(su, s, t, Move(epsilonTmp, sigmaTmp, mseTmp, v, a))
  {
    assert (a.mseMin < s.mseMin) == Checkpoint(s, Move(epsilonTmp, sigmaTmp, mseTmp, v, a));
  }

  class StructureFactorMonteCarlo {
    const sf: StructureFactor
    const builtins: Builtins

    var maxIter: int
    var msePrecission: real
    var kt: real
    var epsilonBounds: Bounds
    var sigmaBounds: Bounds
    var gdrRecords: int
    var gdrInputFile: string
    var gdrOutputFile: string
    var sfRefFile: string
    var outputMseFile: string

    var sQref: seq<real>
    var epsilon: real
    var sigma: real
    var rc: real
    var mse: real

    constructor (sf: StructureFactor, builtins: Builtins)
      ensures this.sf == sf && this.builtins == builtins
    {
      this.sf, this.builtins := sf, builtins;
      maxIter, msePrecission, kt := 0, 0.0, 0.0;
      epsilonBounds, sigmaBounds := Bounds(0.0, 0.0, 0.0, 0.0), Bounds(0.0, 0.0, 0.0, 0.0);
      gdrRecords, gdrInputFile, gdrOutputFile, sfRefFile, outputMseFile := 0, "", "", "", "";
      sQref, epsilon, sigma, rc, mse := [], 0.0, 0.0, 0.0, 0.0;
    }

    /** The fields hold the configuration `cfg`, with the midpoint of each parameter range. */
    ghost predicate Loaded(cfg: McConfig)
      reads sf`qMax, sf`deltaQ, sf`nIterAverage, sf`speciesChars, sf`bScatteringBySpecie,
            sf`nCudaThreads, sf`initLammpsFile, sf`ouputFile
      reads this`maxIter, this`msePrecission, this`kt, this`epsilonBounds, this`sigmaBounds,
            this`gdrRecords, this`gdrInputFile, this`gdrOutputFile, this`sfRefFile, this`outputMseFile
    {
      && sf.qMax == cfg.sf.qMax && sf.deltaQ == cfg.sf.deltaQ && sf.nIterAverage == cfg.sf.nIterAverage
      && sf.speciesChars == cfg.sf.speciesChars && sf.bScatteringBySpecie == cfg.sf.bScatteringBySpecie
      && sf.nCudaThreads == cfg.sf.nCudaThreads && sf.initLammpsFile == cfg.sf.initLammpsFile
      && sf.ouputFile == cfg.sf.ouputFile
      && maxIter == cfg.maxIter && msePrecission == cfg.msePrecission && kt == cfg.kt
      && epsilonBounds == WithMidrange(cfg.deltaEpsilon, cfg.minEpsilon, cfg.maxEpsilon)
      && sigmaBounds == WithMidrange(cfg.deltaSigma, cfg.minSigma, cfg.maxSigma)
      && gdrRecords == cfg.gdrRecords && gdrInputFile == cfg.gdrInputFile
      && gdrOutputFile == cfg.gdrOutputFile && sfRefFile == cfg.sfRefFile
      && outputMseFile == cfg.outputMseFile
    }

    /** `loadConfigFile`: the evaluator's keys, then the Monte Carlo keys; the midpoint of each
        parameter range is derived here. */
    method LoadConfigFile(cfg: McConfig) returns (elapsed: real)
      modifies sf`qMax, sf`deltaQ, sf`nIterAverage, sf`speciesChars, sf`bScatteringBySpecie,
               sf`nCudaThreads, sf`initLammpsFile, sf`ouputFile, sf.world`ticks
      modifies this`maxIter, this`msePrecission, this`kt, this`epsilonBounds, this`sigmaBounds,
               this`gdrRecords, this`gdrInputFile, this`gdrOutputFile, this`sfRefFile, this`outputMseFile
      ensures Loaded(cfg)
    {
      var inherited := sf.LoadConfigFile(cfg.sf);
      maxIter, msePrecission, kt := cfg.maxIter, cfg.msePrecission, cfg.kt;
      epsilonBounds := WithMidrange(cfg.deltaEpsilon, cfg.minEpsilon, cfg.maxEpsilon);
      sigmaBounds := WithMidrange(cfg.deltaSigma, cfg.minSigma, cfg.maxSigma);
      gdrRecords, gdrInputFile, gdrOutputFile := cfg.gdrRecords, cfg.gdrInputFile, cfg.gdrOutputFile;
      sfRefFile, outputMseFile := cfg.sfRefFile, cfg.outputMseFile;
      var own := sf.world.Elapsed();
      elapsed := inherited + own;
    }

    /** `initVariables`: the evaluator's set-up, then the reference S(q), then the starting
        epsilon, sigma and cut-off from the LAMMPS input file. */
    method InitVariables() returns (r: Result<real>)
      requires sf.world.Valid()
      modifies sf`nSpecies, sf`side, sf`nDim, sf`qBoxes, sf`sQ, sf`sQlen, sf`deltaQVector,
               sf`rXYZ, sf`tAtoms, sf`nAtoms, sf`bVector, sf.world`log, sf.world`ticks
      modifies this`sQref, this`epsilon, this`sigma, this`rc
      ensures r.Err? <==> || QBoxes(sf.qMax, sf.deltaQ).Err? || QBoxes(sf.qMax, sf.deltaQ).value < 0
                          || !TypesIndexable(sf.world.types, sf.bScatteringBySpecie, sf.world.nAtoms)
                          || SecondColumn(sf.world.tables(sfRefFile)).Err?
                          || ScanPairCoeff(builtins.parseFloat, sf.world.textLines(sf.initLammpsFile),
                                           Coefficients(0.0, 0.0, 0.0)).Err?
      ensures unchanged(sf`qMax, sf`deltaQ, sf`nIterAverage, sf`speciesChars, sf`bScatteringBySpecie,
                        sf`nCudaThreads, sf`initLammpsFile, sf`ouputFile)
      ensures unchanged(this`maxIter, this`msePrecission, this`kt, this`epsilonBounds, this`sigmaBounds,
                        this`gdrRecords, this`gdrInputFile, this`gdrOutputFile, this`sfRefFile, this`outputMseFile)
      ensures r.Ok? ==> sf.Ready() && fresh(sf.sQ)
      ensures r.Ok? ==> sf.world.log == old(sf.world.log) + [Extract]
      ensures r.Ok? ==> CommandsOf(sf.world.log) == CommandsOf(old(sf.world.log))
      ensures r.Ok? ==> SecondColumn(sf.world.tables(sfRefFile)) == Ok(sQref)
      ensures r.Ok? ==> ScanPairCoeff(builtins.parseFloat, sf.world.textLines(sf.initLammpsFile),
                                      Coefficients(0.0, 0.0, 0.0)) == Ok(Coefficients(epsilon, sigma, rc))
    {
      var inherited := sf.InitVariables();
      if inherited.Err? {
        return Err(inherited.fault);
      }
      var fault := InitReference();
      if fault.Some? {
        return Err(fault.value);
      }
      var own := sf.world.Elapsed();
      r := Ok(inherited.value + own);
    }

    /** The Monte Carlo part of `initVariables`: the reference S(q), then epsilon, sigma and the
        cut-off from the LAMMPS input file, starting from zero. */
    method InitReference() returns (fault: Option<Fault>)
      modifies this`sQref, this`epsilon, this`sigma, this`rc
      ensures fault.None? <==> && SecondColumn(sf.world.tables(sfRefFile)).Ok?
                               && ScanPairCoeff(builtins.parseFloat, sf.world.textLines(sf.initLammpsFile),
                                                Coefficients(0.0, 0.0, 0.0)).Ok?
      ensures fault.None? ==> && SecondColumn(sf.world.tables(sfRefFile)) == Ok(sQref)
                              && ScanPairCoeff(builtins.parseFloat, sf.world.textLines(sf.initLammpsFile),
                                               Coefficients(0.0, 0.0, 0.0)) == Ok(Coefficients(epsilon, sigma, rc))
    {
      var column := SecondColumn(sf.world.tables(sfRefFile));
      if column.Err? {
        return Some(column.fault);
      }
      sQref := column.value;
      epsilon, sigma, rc := 0.0, 0.0, 0.0;
      fault := ReadPairCoeff(sf.world.textLines(sf.initLammpsFile));
    }

    /** The `for line in file` loop: every `pair_coeff` line overwrites the three fields. */
    method ReadPairCoeff(lines: seq<string>) returns (fault: Option<Fault>)
      modifies this`epsilon, this`sigma, this`rc
      ensures var scan := ScanPairCoeff(builtins.parseFloat, lines, old(Coefficients(epsilon, sigma, rc)));
              && (fault.None? <==> scan.Ok?)
              && (fault.None? ==> scan.value == Coefficients(epsilon, sigma, rc))
    {
      ghost var init := Coefficients(epsilon, sigma, rc);
      var i := 0;
      while i < |lines|
        invariant 0 <= i <= |lines|
        invariant ScanPairCoeff(builtins.parseFloat, lines[..i], init) == Ok(Coefficients(epsilon, sigma, rc))
      {
        assert lines[..i + 1][..i] == lines[..i];
        if IsPairCoeff(lines[i]) {
          var fields := PairCoeffFields(builtins.parseFloat, lines[i]);
          if fields.Err? {
            PrefixFails(lines, i + 1, init);
            return Some(fields.fault);
          }
          epsilon, sigma, rc := fields.value.epsilon, fields.value.sigma, fields.value.rc;
        }
        i := i + 1;
      }
      assert lines[..i] == lines;
      return None;
    }

    /** A read that fails on a prefix fails on the whole file. */
    lemma {:induction false} PrefixFails(lines: seq<string>, k: nat, init: Coefficients)
      requires k <= |lines| && ScanPairCoeff(builtins.parseFloat, lines[..k], init).Err?
      ensures ScanPairCoeff(builtins.parseFloat, lines, init).Err?
      decreases |lines| - k
    {
      if k < |lines| {
        assert lines[..k + 1][..k] == lines[..k];
        PrefixFails(lines, k + 1, init);
      } else {
        assert lines[..k] == lines;
      }
    }

    /** Everything the search reads and never changes. */
    ghost function Settings(): Setup
      reads this`epsilonBounds, this`sigmaBounds, this`kt, this`msePrecission, this`maxIter, this`rc,
            this`sQref, this`gdrRecords, this`gdrInputFile, this`gdrOutputFile, this`outputMseFile,
            sf`nIterAverage, sf`sQ, sf`sQlen, sf`deltaQVector, sf`ouputFile
    {
      Setup(epsilonBounds, sigmaBounds, kt, msePrecission, maxIter, rc, sQref, sf.nIterAverage,
            sf.sQ.Length, sf.sQlen, sf.deltaQVector, sf.ouputFile, gdrRecords, gdrInputFile,
            gdrOutputFile, outputMseFile, builtins)
    }

    /** The loop state, from the fields and the loop's counters. */
    function Here(mseMin: real, nAccept: nat, mcIter: nat): Point
      reads this`epsilon, this`sigma, this`mse
    {
      Point(epsilon, sigma, mse, mseMin, nAccept, mcIter)
    }

    /** `writeOutput(step)`: a header with the step, the current score and parameters, then one
        row per written bin. */
    method WriteOutput(step: int) returns (elapsed: real)
      requires sf.Shaped()
      modifies sf.world`log, sf.world`ticks
      ensures sf.world.log == old(sf.world.log) +
                [WriteSq(sf.ouputFile, Some(Header(step, mse, epsilon, sigma, rc)),
                         Rows(sf.deltaQVector, sf.sQ[..], sf.sQlen))]
    {
      var rows := sf.SqRows();
      sf.world.Emit(WriteSq(sf.ouputFile, Some(Header(step, mse, epsilon, sigma, rc)), rows));
      elapsed := sf.world.Elapsed();
    }

    /** The two proposals: one draw for epsilon, then one for sigma, each kept in its range or
        reset to the midpoint. */
    method ProposeParameters() returns (epsilonTmp: real, sigmaTmp: real, uEpsilon: real, uSigma: real)
      requires sf.world.Uniform()
      modifies sf.world`draws
      ensures sf.world.draws == old(sf.world.draws) + 2
      ensures uEpsilon == sf.world.random(old(sf.world.draws))
      ensures uSigma == sf.world.random(old(sf.world.draws) + 1)
      ensures epsilonTmp == Propose(epsilon, epsilonBounds, uEpsilon)
      ensures sigmaTmp == Propose(sigma, sigmaBounds, uSigma)
    {
      uEpsilon := sf.world.Random();
      epsilonTmp := RawProposal(epsilon, epsilonBounds, uEpsilon);
      if epsilonTmp < epsilonBounds.min || epsilonTmp > epsilonBounds.max {
        epsilonTmp := epsilonBounds.midrange;
      }
      uSigma := sf.world.Random();
      sigmaTmp := RawProposal(sigma, sigmaBounds, uSigma);
      if sigmaTmp < sigmaBounds.min || sigmaTmp > sigmaBounds.max {
        sigmaTmp := sigmaBounds.midrange;
      }
    }

    /** The candidate is set in LAMMPS, equilibrated, and evaluated: the S(q) left in the buffer
        is that of the nIterAverage snapshots simulated after the candidate's `pair_coeff`. */
    method TryCandidate(epsilonTmp: real, sigmaTmp: real) returns (elapsed: real)
      requires sf.sfCudaLib == StructureFactorEntry
      modifies sf`rXYZ, sf.sQ, sf.world`log, sf.world`acc, sf.world`ticks
      ensures sf.world.log == old(sf.world.log) + [Cmd(PairCoeff(epsilonTmp, sigmaTmp, rc)), Cmd(Run(EquilibrationSteps))]
                              + Evaluation(sf.nIterAverage)
      ensures 1 <= sf.nIterAverage ==>
                && sf.world.acc == Snapshots(sf.world.physics, CommandsOf(old(sf.world.log))
                                             + [PairCoeff(epsilonTmp, sigmaTmp, rc), Run(EquilibrationSteps)], sf.nIterAverage)
                && sf.sQ[..] == sf.world.Spectrum(sf.world.acc, sf.sQ.Length)
      ensures sf.nIterAverage < 1 ==> sf.world.acc == old(sf.world.acc) && sf.sQ[..] == old(sf.sQ[..])
      ensures elapsed == sf.world.stopwatch(old(sf.world.ticks)) && sf.world.ticks == old(sf.world.ticks) + 1
    {
      ghost var commands := CommandsOf(sf.world.log);
      sf.world.Send(PairCoeff(epsilonTmp, sigmaTmp, rc));
      sf.world.Send(Run(EquilibrationSteps));
      assert CommandsOf(sf.world.log) == commands + [PairCoeff(epsilonTmp, sigmaTmp, rc), Run(EquilibrationSteps)];
      elapsed := sf.RunStructureFactor();
    }

    /** The acceptance test; the third draw is taken whenever the candidate is no better, at
        every temperature. */
    method Decide(mseTmp: real) returns (v: Verdict, u: real)
      requires sf.world.Uniform()
      modifies sf.world`draws
      ensures v == Judge(mse, mseTmp, kt, u, builtins.exp)
      ensures !v.msePass ==> u == sf.world.random(old(sf.world.draws)) && sf.world.draws == old(sf.world.draws) + 1
      ensures v.msePass ==> sf.world.draws == old(sf.world.draws)
    {
      u := 0.0;
      if mseTmp < mse {
        return Verdict(true, false), u;
      }
      if kt == 0.0 {
        // float64 division: exp(-inf) = 0 and exp(nan) = nan, neither above a draw in [0, 1)
        u := sf.world.Random();
        return Verdict(false, false), u;
      }
      var diff := (mseTmp - mse) / kt;
      u := sf.world.Random();
      v := Verdict(false, builtins.exp(-diff) > u);
    }

    /** The writes after the verdict, with `a` the new loop state. */
    method Record(checkpoint: bool, a: Point, v: Verdict)
      requires a.mcIter > 0 && sf.Shaped()
      requires a.epsilon == epsilon && a.sigma == sigma && a.mse == mse
      modifies sf.world`log, sf.world`ticks
      ensures sf.world.log == old(sf.world.log) +
                Bookkeeping(Settings(), checkpoint, Rows(sf.deltaQVector, sf.sQ[..], sf.sQlen), a, v)
    {
      if checkpoint {
        var _ := WriteOutput(a.mcIter);
        sf.world.Emit(Tail(gdrRecords, gdrInputFile, gdrOutputFile));
      }
      var rAccept := a.nAccept as real / a.mcIter as real;
      if v.msePass || v.bolzPass {
        sf.world.Emit(MseLine(a.nAccept, mse, epsilon, sigma));
      }
      sf.world.Emit(PrintStep(a.mcIter, rAccept, mse, epsilon, sigma, v.msePass, v.bolzPass));
      if mse < msePrecission {
        sf.world.Emit(PrintConverged);
      }
    }

    /** One pass of the while loop, from the loop state `Here(mseMin, nAccept, mcIter)`. */
    method Iteration(ghost su: Setup, mseMin: real, nAccept: nat, mcIter: nat)
      returns (r: Result<Point>, ghost t: Trial, elapsed: real)
      requires su == Settings() && sf.Shaped()
      requires sf.world.Uniform() && sf.sfCudaLib == StructureFactorEntry
      modifies this`epsilon, this`sigma, this`mse, sf`rXYZ, sf.sQ,
               sf.world`log, sf.world`acc, sf.world`ticks, sf.world`draws
      ensures r.Ok? ==> && Stepped(su, old(Here(mseMin, nAccept, mcIter)), t, r.value, old(sf.world.log),
                                   sf.world.log, sf.world.random, old(sf.world.draws), sf.world.draws)
                        && r.value == Here(r.value.mseMin, r.value.nAccept, r.value.mcIter)
      ensures r.Err? ==> Iterate(su, old(Here(mseMin, nAccept, mcIter)), t) == Err(r.fault)
    {
      ghost var s := Here(mseMin, nAccept, mcIter);
      ghost var log0, draws0 := sf.world.log, sf.world.draws;
      var epsilonTmp, sigmaTmp, uEpsilon, uSigma := ProposeParameters();
      elapsed := TryCandidate(epsilonTmp, sigmaTmp);
      ghost var spectrum := sf.sQ[..];
      t := Trial(uEpsilon, uSigma, spectrum, 0.0);
      var score := Score(builtins, sQref, Prefix(sf.sQ[..], sf.sQlen));
      if score.Err? {
        return Err(score.fault), t, elapsed;
      }
      var verdict, uAccept := Decide(score.value);
      t := Trial(uEpsilon, uSigma, spectrum, uAccept);
      ghost var log1 := sf.world.log;
      var a := Conclude(su, epsilonTmp, sigmaTmp, score.value, verdict, mseMin, nAccept, mcIter);
      IterationSteps(su, s, t, epsilonTmp, sigmaTmp, score.value, verdict, a, log0, log1, sf.world.log);
      DrawSteps(su, s, t, sf.world.random, draws0, sf.world.draws);
      r := Ok(a);
    }

    /** Acceptance and the writes that follow it. */
    method Conclude(ghost su: Setup, epsilonTmp: real, sigmaTmp: real, mseTmp: real, v: Verdict,
                    mseMin: real, nAccept: nat, mcIter: nat) returns (a: Point)
      requires su == Settings() && sf.Shaped()
      modifies this`epsilon, this`sigma, this`mse, sf.world`log, sf.world`ticks
      ensures a == Advance(old(Here(mseMin, nAccept, mcIter)), epsilonTmp, sigmaTmp, mseTmp, v)
      ensures a == Here(a.mseMin, a.nAccept, a.mcIter)
      ensures sf.world.log == old(sf.world.log) +
                Bookkeeping(su, a.mseMin < mseMin, Rows(su.centres, sf.sQ[..], su.sQlen), a, v)
    {
      var accepted := nAccept;
      if v.msePass || v.bolzPass {
        accepted := nAccept + 1;
        epsilon, sigma, mse := epsilonTmp, sigmaTmp, mseTmp;
      }
      var checkpoint := mse < mseMin;
      a := Here(if checkpoint then mse else mseMin, accepted, mcIter + 1);
      Record(checkpoint, a, v);
    }

    /** The loop of `runMonteCarlo` after `mcIter` iterations from `s0`: the states it went
        through, what each iteration consumed, the events and the draws so far, and the fields
        and counters holding the last state. */
    ghost predicate Searching(su: Setup, s0: Point, states: seq<Point>, trials: seq<Trial>, log0: seq<Event>,
                              draws0: nat, mseMin: real, nAccept: nat, mcIter: nat)
      requires GridShaped(su)
      reads this`epsilon, this`sigma, this`mse, sf.world`log, sf.world`draws
    {
      && Walk(su, states, trials) && states[0] == s0
      && Recorded(su, states, trials, log0, sf.world.log, sf.world.random, draws0, sf.world.draws)
      && mcIter == |trials|
      && states[|trials|] == Here(mseMin, nAccept, mcIter)
    }

    /** One iteration appended to the walk so far. */
    method Stride(ghost su: Setup, ghost s0: Point, ghost states: seq<Point>, ghost trials: seq<Trial>,
                  ghost log0: seq<Event>, ghost draws0: nat, mseMin: real, nAccept: nat, mcIter: nat)
      returns (r: Result<Point>, ghost t: Trial, elapsed: real)
      requires su == Settings() && sf.Shaped()
      requires sf.world.Uniform() && sf.sfCudaLib == StructureFactorEntry
      requires GridShaped(su) && Searching(su, s0, states, trials, log0, draws0, mseMin, nAccept, mcIter)
      modifies this`epsilon, this`sigma, this`mse, sf`rXYZ, sf.sQ,
               sf.world`log, sf.world`acc, sf.world`ticks, sf.world`draws
      ensures r.Ok? ==> Searching(su, s0, states + [r.value], trials + [t], log0, draws0,
                                  r.value.mseMin, r.value.nAccept, r.value.mcIter)
      ensures r.Err? ==> Iterate(su, states[|trials|], t) == Err(r.fault)
    {
      ghost var log1, draws1 := sf.world.log, sf.world.draws;
      r, t, elapsed := Iteration(su, mseMin, nAccept, mcIter);
      if r.Ok? {
        RecordedStep(su, states, trials, t, r.value, log0, log1, sf.world.log,
                     sf.world.random, draws0, draws1, sf.world.draws);
        assert (states + [r.value])[0] == s0;
      }
    }

    /** The MSE file and the console before the first iteration. */
    method Open(ghost su: Setup)
      requires su == Settings()
      modifies sf.world`log
      ensures sf.world.log == old(sf.world.log) + Opening(su, Here(mse, 0, 0))
    {
      sf.world.Emit(OpenMse(outputMseFile));
      sf.world.Emit(MseLine(0, mse, epsilon, sigma));
      sf.world.Emit(PrintHeader);
      sf.world.Emit(PrintStep(0, 0.0, mse, epsilon, sigma, false, false));
    }

    /** The while loop of `runMonteCarlo`, from the state with the starting score. It returns the
        states it went through and what each iteration consumed; when an iteration raises, `last`
        is what that iteration consumed. */
    method Search(ghost su: Setup) returns (r: Result<real>, ghost states: seq<Point>,
                                            ghost trials: seq<Trial>, ghost last: Trial)
      requires su == Settings() && sf.Shaped()
      requires sf.world.Uniform() && sf.sfCudaLib == StructureFactorEntry
      modifies this`epsilon, this`sigma, this`mse, sf`rXYZ, sf.sQ,
               sf.world`log, sf.world`acc, sf.world`ticks, sf.world`draws
      ensures Walk(su, states, trials) && states[0] == old(Initial(epsilon, sigma, mse))
      ensures AboveTarget(su, states[..|trials|])
      ensures r.Ok? ==> && Stopped(su, states, trials)
                        && states[|trials|] == Here(states[|trials|].mseMin, states[|trials|].nAccept, |trials|)
                        && Recorded(su, states, trials, old(sf.world.log), sf.world.log,
                                    sf.world.random, old(sf.world.draws), sf.world.draws)
      ensures r.Err? ==> && |trials| < su.maxIter && AboveTarget(su, states)
                         && Iterate(su, states[|trials|], last) == Err(r.fault)
    {
      ghost var log0, draws0 := sf.world.log, sf.world.draws;
      ghost var s0 := Initial(epsilon, sigma, mse);
      var mseMin, nAccept, mcIter := mse, 0, 0;
      states, trials := [Here(mseMin, nAccept, mcIter)], [];
      last := Trial(0.0, 0.0, [], 0.0);
      var elapsed := 0.0;
      var failure: Option<Fault> := None;
      while mcIter < maxIter
        invariant failure.None? && Searching(su, s0, states, trials, log0, draws0, mseMin, nAccept, mcIter)
        invariant |trials| <= (if su.maxIter < 0 then 0 else su.maxIter)
        invariant AboveTarget(su, states)
        decreases maxIter - mcIter
      {
        var step, t, e := Stride(su, s0, states, trials, log0, draws0, mseMin, nAccept, mcIter);
        elapsed := elapsed + e;
        if step.Err? {
          failure, last := Some(step.fault), t;
          break;
        }
        states, trials := states + [step.value], trials + [t];
        mseMin, nAccept, mcIter := step.value.mseMin, step.value.nAccept, step.value.mcIter;
        if mse < msePrecission {
          break;
        }
        AboveTargetExtend(su, states[..|trials|], step.value);
      }
      if failure.Some? {
        return Err(failure.value), states, trials, last;
      }
      r := Ok(elapsed);
    }

    /** The `with open(outputMseFile)` block: the headers, then the search from the current
        parameters and score. */
    method Explore(ghost su: Setup) returns (r: Result<real>, ghost states: seq<Point>,
                                             ghost trials: seq<Trial>, ghost last: Trial)
      requires su == Settings() && sf.Shaped()
      requires sf.world.Uniform() && sf.sfCudaLib == StructureFactorEntry
      modifies this`epsilon, this`sigma, this`mse, sf`rXYZ, sf.sQ,
               sf.world`log, sf.world`acc, sf.world`ticks, sf.world`draws
      ensures Walk(su, states, trials) && states[0] == old(Initial(epsilon, sigma, mse))
      ensures r.Ok? ==> && Stopped(su, states, trials)
                        && Recorded(su, states, trials, old(sf.world.log) + Opening(su, states[0]),
                                    sf.world.log, sf.world.random, old(sf.world.draws), sf.world.draws)
      ensures r.Err? ==> && |trials| < su.maxIter && AboveTarget(su, states)
                         && Iterate(su, states[|trials|], last) == Err(r.fault)
    {
      Open(su);
      r, states, trials, last := Search(su);
    }

    /** The evaluation of the current parameters and the score of its S(q) against the reference:
        the square root of the summed squared differences over the written bins. */
    method Evaluate() returns (score: Result<real>, ghost initial: seq<real>, elapsed: real)
      requires sf.sfCudaLib == StructureFactorEntry
      modifies sf`rXYZ, sf.sQ, sf.world`log, sf.world`acc, sf.world`ticks
      ensures 1 <= sf.nIterAverage ==>
                initial == sf.world.Spectrum(Snapshots(sf.world.physics, CommandsOf(old(sf.world.log)),
                                                       sf.nIterAverage), sf.sQ.Length)
      ensures sf.nIterAverage < 1 ==> initial == old(sf.sQ[..])
      ensures initial == sf.sQ[..]
      ensures score == Score(builtins, sQref, Prefix(initial, sf.sQlen))
      ensures sf.world.log == old(sf.world.log) + Evaluation(sf.nIterAverage)
      ensures sf.rXYZ == Transpose(sf.world.physics(CommandsOf(old(sf.world.log))
                                                    + Advances(if sf.nIterAverage < 1 then 0 else sf.nIterAverage)), 3)
      ensures elapsed == sf.world.stopwatch(old(sf.world.ticks)) && sf.world.ticks == old(sf.world.ticks) + 1
    {
      elapsed := sf.RunStructureFactor();
      initial := sf.sQ[..];
      score := Score(builtins, sQref, Prefix(sf.sQ[..], sf.sQlen));
    }

    /** `runMonteCarlo`: one evaluation of the starting parameters, its score as the first state,
        the MSE file and console headers, and the search. `initial` is the S(q) buffer after the
        first evaluation and `start` its score; when the score cannot be computed nothing is
        written and the run ends with that exception. */
    method RunMonteCarlo() returns (r: Result<real>, ghost initial: seq<real>, ghost start: Result<real>,
                                    ghost states: seq<Point>, ghost trials: seq<Trial>, ghost last: Trial,
                                    ghost su: Setup)
      requires sf.Shaped() && sf.world.Uniform() && sf.sfCudaLib == StructureFactorEntry
      modifies this`epsilon, this`sigma, this`mse, sf`rXYZ, sf.sQ,
               sf.world`log, sf.world`acc, sf.world`ticks, sf.world`draws
      ensures su == old(Settings())
      ensures 1 <= su.nIterAverage ==>
                initial == sf.world.Spectrum(Snapshots(sf.world.physics, CommandsOf(old(sf.world.log)),
                                                       su.nIterAverage), su.qBoxes)
      ensures su.nIterAverage < 1 ==> initial == old(sf.sQ[..])
      ensures start == Score(builtins, su.sQref, Prefix(initial, su.sQlen))
      ensures start.Err? ==> && r == Err(start.fault)
                             && sf.world.log == old(sf.world.log) + Evaluation(su.nIterAverage)
                             && sf.world.draws == old(sf.world.draws)
      ensures start.Ok? ==> && Walk(su, states, trials)
                            && states[0] == Initial(old(epsilon), old(sigma), start.value)
      ensures start.Ok? && r.Ok? ==>
                && Stopped(su, states, trials)
                && Recorded(su, states, trials,
                            old(sf.world.log) + Evaluation(su.nIterAverage) + Opening(su, states[0]),
                            sf.world.log, sf.world.random, old(sf.world.draws), sf.world.draws)
      ensures start.Ok? && r.Err? ==> && |trials| < su.maxIter && AboveTarget(su, states)
                                      && Iterate(su, states[|trials|], last) == Err(r.fault)
    {
      su := Settings();
      var score, elapsed;
      score, initial, elapsed := Evaluate();
      start, states, trials := score, [], [];
      if score.Err? {
        last := Trial(0.0, 0.0, [], 0.0);
        return Err(score.fault), initial, start, states, trials, last, su;
      }
      mse := score.value;
      var found;
      found, states, trials, last := Explore(su);
      if found.Err? {
        return Err(found.fault), initial, start, states, trials, last, su;
      }
      r := Ok(elapsed + found.value);
    }
  }
}
