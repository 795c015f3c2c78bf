/**
 * The two entry scripts, lennard_jones/python/main_sf.py and main_sfmc.py: the life cycle of one
 * evaluator or one Monte Carlo fit, the run time summed over its steps, and that time printed as
 * days, hours, minutes and seconds.
 */
module Drivers {
  import opened Outcomes
  import opened PythonOps
  import opened Environment
  import opened Evaluator
  import opened Search
  import opened MonteCarlo

  /** A duration split by three `divmod` calls. */
  datatype WallClock = WallClock(days: real, hours: real, minutes: real, seconds: real)

  /** `divmod(runTime, 60)`, then `divmod(minutes, 60)`, then `divmod(hours, 24)`. */
  function WallTime(runTime: real): (w: WallClock)
    ensures w.days * 86400.0 + w.hours * 3600.0 + w.minutes * 60.0 + w.seconds == runTime
    ensures Integral(w.days) && Integral(w.hours) && Integral(w.minutes)
    ensures 0.0 <= runTime ==> 0.0 <= w.days
    ensures 0.0 <= w.hours < 24.0 && 0.0 <= w.minutes < 60.0 && 0.0 <= w.seconds < 60.0
  {
    var ms := DivMod(runTime, 60.0);
    var hm := DivMod(ms.0, 60.0);
    var dh := DivMod(hm.0, 24.0);
    assert hm.0 * 3600.0 == dh.0 * 86400.0 + dh.1 * 3600.0;
    assert ms.0 * 60.0 == hm.0 * 3600.0 + hm.1 * 60.0;
    WholeRemainders(ms.0, hm.0);
    WholeRemainders(hm.0, dh.0);
    WallClock(dh.0, dh.1, hm.1, ms.1)
  }

  /** A whole number less a whole multiple of 60 or of 24 is whole. */
  lemma WholeRemainders(x: real, q: real)
    requires Integral(x) && Integral(q)
    ensures Integral(x - 60.0 * q) && Integral(x - 24.0 * q)
  {
    var a, b := x.Floor, q.Floor;
    assert x - 60.0 * q == (a - 60 * b) as real;
    IntegralOfInt(a - 60 * b);
    assert x - 24.0 * q == (a - 24 * b) as real;
    IntegralOfInt(a - 24 * b);
  }

  /** The closing line `# Total wall time: ...s => {d}d{h}h{m}m{s}s`, each part through `int()`. */
  function WallTimeLine(runTime: real): (e: Event)
    ensures IsOutput(e)
  {
    var w := WallTime(runTime);
    PrintWallTime(runTime, Trunc(w.days), Trunc(w.hours), Trunc(w.minutes), Trunc(w.seconds))
  }

  /** For a non-negative run time the printed parts are its whole seconds written in mixed radix:
      they recombine to the floor of the run time and each but the days is below its radix. */
  lemma WallTimeDigits(runTime: real)
    requires 0.0 <= runTime
    ensures var e := WallTimeLine(runTime);
            && e.days * 86400 + e.hours * 3600 + e.minutes * 60 + e.seconds == runTime.Floor
            && 0 <= e.days && 0 <= e.hours < 24 && 0 <= e.minutes < 60 && 0 <= e.seconds < 60
  {
    var w := WallTime(runTime);
    var e := WallTimeLine(runTime);
    assert e.days as real == w.days && e.hours as real == w.hours && e.minutes as real == w.minutes;
    assert e.seconds as real <= w.seconds < e.seconds as real + 1.0;
    var whole := e.days * 86400 + e.hours * 3600 + e.minutes * 60;
    assert whole as real <= runTime < whole as real + 60.0;
    assert (whole + e.seconds) as real <= runTime < (whole + e.seconds) as real + 1.0;
  }

  /** The configurations whose set-up raises: a zero bin width (ZeroDivisionError), a negative
      bin count (numpy refuses the buffer), or an atom type that indexes past the scattering lengths. */
  predicate SetUpFails(world: World, cfg: SfConfig) {
    || QBoxes(cfg.qMax, cfg.deltaQ).Err? || QBoxes(cfg.qMax, cfg.deltaQ).value < 0
    || !TypesIndexable(world.types, cfg.bScatteringBySpecie, world.nAtoms)
  }

  /** The first three steps of main_sf.py: configuration, LAMMPS, set-up. */
  method SetUp(sf: StructureFactor, cfg: SfConfig) returns (r: Result<real>)
    requires sf.world.Valid()
    modifies sf`qMax, sf`deltaQ, sf`nIterAverage, sf`speciesChars, sf`bScatteringBySpecie,
             sf`nCudaThreads, sf`initLammpsFile, sf`ouputFile
    modifies sf`nSpecies, sf`side, sf`nDim, sf`qBoxes, sf`sQ, sf`sQlen, sf`deltaQVector,
             sf`rXYZ, sf`tAtoms, sf`nAtoms, sf`bVector, sf.world`log, sf.world`ticks
    ensures sf.Config() == cfg
    ensures r.Err? <==> SetUpFails(sf.world, cfg)
    ensures r.Ok? ==> && sf.Ready() && fresh(sf.sQ)
                      && sf.world.log == old(sf.world.log) + [Start, Cmd(Include(cfg.initLammpsFile)), Extract]
                      && CommandsOf(sf.world.log) == CommandsOf(old(sf.world.log)) + [Include(cfg.initLammpsFile)]
                      && sf.world.ticks == old(sf.world.ticks) + 3
                      && r.value == Readings(sf.world.stopwatch, old(sf.world.ticks), 3)
  {
    ghost var t0 := sf.world.ticks;
    var runTime := sf.LoadConfigFile(cfg);
    ReadingsStep(sf.world.stopwatch, t0, 0);
    var t := sf.InitLammps();
    ReadingsStep(sf.world.stopwatch, t0, 1);
    var init := sf.InitVariables();
    if init.Err? {
      return Err(init.fault);
    }
    ReadingsStep(sf.world.stopwatch, t0, 2);
    r := Ok(runTime + t + init.value);
  }

  /** The kernel session of main_sf.py: the reciprocal-space call, the session opened with phase 0,
      one evaluation, the session released with phase -1, and the S(q) file. */
  method Session(sf: StructureFactor) returns (elapsed: real)
    requires sf.Ready()
    modifies sf`sfCudaLib, sf`rXYZ, sf.sQ, sf.world`log, sf.world`acc, sf.world`ticks
    ensures sf.world.log == old(sf.world.log) + [Reciprocal, Kernel(0, sf.nIterAverage)]
                            + Evaluation(sf.nIterAverage)
                            + [Kernel(-1, sf.nIterAverage)]
                            + [WriteSq(sf.ouputFile, None, Rows(sf.deltaQVector, sf.sQ[..], sf.sQlen))]
    ensures 1 <= sf.nIterAverage ==>
              sf.sQ[..] == sf.world.Spectrum(Snapshots(sf.world.physics, CommandsOf(old(sf.world.log)),
                                                       sf.nIterAverage), sf.sQ.Length)
    ensures sf.world.ticks == old(sf.world.ticks) + 5
    ensures elapsed == Readings(sf.world.stopwatch, old(sf.world.ticks), 5)
  {
    ghost var t0 := sf.world.ticks;
    elapsed := OpenSession(sf);
    var run := RunAndClean(sf);
    var write := sf.WriteOutput();
    elapsed := elapsed + run + write;
    SessionReadings(sf.world.stopwatch, t0);
  }

  /** The five readings of a session: two while opening it, two around the evaluation, one for
      the output. */
  lemma SessionReadings(stopwatch: nat -> real, from: nat)
    ensures Readings(stopwatch, from, 5)
            == Readings(stopwatch, from, 2) + Readings(stopwatch, from + 2, 2) + stopwatch(from + 4)
  {
    ReadingsThen(stopwatch, from, 2, 2);
  }

  /** `runStructureFactor` and `cleanStructureFactor`: one evaluation in the open session, then
      the session released with phase -1. */
  method RunAndClean(sf: StructureFactor) returns (elapsed: real)
    requires sf.sfCudaLib == StructureFactorEntry
    modifies sf`rXYZ, sf.sQ, sf.world`log, sf.world`acc, sf.world`ticks
    ensures sf.world.log == old(sf.world.log) + Evaluation(sf.nIterAverage) + [Kernel(-1, sf.nIterAverage)]
    ensures 1 <= sf.nIterAverage ==>
              sf.sQ[..] == sf.world.Spectrum(Snapshots(sf.world.physics, CommandsOf(old(sf.world.log)),
                                                       sf.nIterAverage), sf.sQ.Length)
    ensures sf.world.ticks == old(sf.world.ticks) + 2
    ensures elapsed == Readings(sf.world.stopwatch, old(sf.world.ticks), 2)
  {
    ghost var t0 := sf.world.ticks;
    elapsed := sf.RunStructureFactor();
    ReadingsStep(sf.world.stopwatch, t0, 0);
    var t := sf.CleanStructureFactor();
    ReadingsStep(sf.world.stopwatch, t0, 1);
    elapsed := elapsed + t;
  }

  /** The S(q) program: set-up, the kernel session around one evaluation, and the closing line.
      An exception in the set-up ends the program there. */
  method MainSf(world: World, cfg: SfConfig) returns (r: Result<real>, ghost sf: StructureFactor)
    requires world.Valid()
    modifies world`log, world`acc, world`ticks
    ensures r.Err? <==> SetUpFails(world, cfg)
    ensures r.Ok? ==>
              && sf.world == world && QBoxes(cfg.qMax, cfg.deltaQ) == Ok(sf.sQ.Length)
              && sf.sQlen == sf.sQ.Length - 1 && sf.deltaQVector == BinCentres(cfg.deltaQ, sf.sQ.Length)
              && world.log == old(world.log) + [Start, Cmd(Include(cfg.initLammpsFile)), Extract]
                                             + [Reciprocal, Kernel(0, cfg.nIterAverage)]
                                             + Evaluation(cfg.nIterAverage)
                                             + [Kernel(-1, cfg.nIterAverage)]
                                             + [WriteSq(cfg.ouputFile, None, Rows(sf.deltaQVector, sf.sQ[..], sf.sQlen))]
                                             + [WallTimeLine(r.value)]
    ensures r.Ok? && 1 <= cfg.nIterAverage ==>
              sf.sQ[..] == world.Spectrum(Snapshots(world.physics, CommandsOf(old(world.log)) + [Include(cfg.initLammpsFile)],
                                                    cfg.nIterAverage), sf.sQ.Length)
    ensures r.Ok? ==> r.value == Readings(world.stopwatch, old(world.ticks), 8)
  {
    ghost var t0 := world.ticks;
    var s := new StructureFactor(world);
    sf := s;
    assert world.ticks == t0;
    var init := SetUp(s, cfg);
    if init.Err? {
      return Err(init.fault), sf;
    }
    assert init.value == Readings(world.stopwatch, t0, 3) && world.ticks == t0 + 3;
    var t := Session(s);
    assert t == Readings(world.stopwatch, t0 + 3, 5);
    ProgramReadings(world.stopwatch, t0);
    var runTime := init.value + t;
    world.Emit(WallTimeLine(runTime));
    r := Ok(runTime);
  }

  /** The eight readings of main_sf.py: three in the set-up, five in the session. */
  lemma ProgramReadings(stopwatch: nat -> real, from: nat)
    ensures Readings(stopwatch, from, 8) == Readings(stopwatch, from, 3) + Readings(stopwatch, from + 3, 5)
  {
    ReadingsSplit(stopwatch, from, 3, 5);
  }

  /** The configurations whose Monte Carlo set-up raises: those of the evaluator, a reference
      S(q) file without a second column, and a `pair_coeff` line of the LAMMPS input file that
      does not carry three numbers. */
  predicate McSetUpFails(world: World, builtins: Builtins, cfg: McConfig) {
    || SetUpFails(world, cfg.sf)
    || SecondColumn(world.tables(cfg.sfRefFile)).Err?
    || ScanPairCoeff(builtins.parseFloat, world.textLines(cfg.sf.initLammpsFile), Coefficients(0.0, 0.0, 0.0)).Err?
  }

  /** The first three steps of main_sfmc.py: configuration, LAMMPS, set-up with the reference
      S(q) and the starting parameters. */
  method McSetUp(mc: StructureFactorMonteCarlo, cfg: McConfig) returns (r: Result<real>)
    requires mc.sf.world.Valid()
    modifies mc.sf`qMax, mc.sf`deltaQ, mc.sf`nIterAverage, mc.sf`speciesChars, mc.sf`bScatteringBySpecie,
             mc.sf`nCudaThreads, mc.sf`initLammpsFile, mc.sf`ouputFile
    modifies mc.sf`nSpecies, mc.sf`side, mc.sf`nDim, mc.sf`qBoxes, mc.sf`sQ, mc.sf`sQlen, mc.sf`deltaQVector,
             mc.sf`rXYZ, mc.sf`tAtoms, mc.sf`nAtoms, mc.sf`bVector, mc.sf.world`log, mc.sf.world`ticks
    modifies mc`maxIter, mc`msePrecission, mc`kt, mc`epsilonBounds, mc`sigmaBounds, mc`gdrRecords,
             mc`gdrInputFile, mc`gdrOutputFile, mc`sfRefFile, mc`outputMseFile,
             mc`sQref, mc`epsilon, mc`sigma, mc`rc
    ensures mc.Loaded(cfg)
    ensures r.Err? <==> McSetUpFails(mc.sf.world, mc.builtins, cfg)
    ensures r.Ok? ==> && mc.sf.Ready() && fresh(mc.sf.sQ)
                      && SecondColumn(mc.sf.world.tables(cfg.sfRefFile)) == Ok(mc.sQref)
                      && ScanPairCoeff(mc.builtins.parseFloat, mc.sf.world.textLines(cfg.sf.initLammpsFile),
                                       Coefficients(0.0, 0.0, 0.0)) == Ok(Coefficients(mc.epsilon, mc.sigma, mc.rc))
                      && mc.sf.world.log == old(mc.sf.world.log) + [Start, Cmd(Include(cfg.sf.initLammpsFile)), Extract]
                      && CommandsOf(mc.sf.world.log) == CommandsOf(old(mc.sf.world.log)) + [Include(cfg.sf.initLammpsFile)]
  {
    var runTime := McLoad(mc, cfg);
    var init := mc.InitVariables();
    if init.Err? {
      return Err(init.fault);
    }
    r := Ok(runTime + init.value);
  }

  /** `loadConfigFile` and `initLammps` of main_sfmc.py. */
  method McLoad(mc: StructureFactorMonteCarlo, cfg: McConfig) returns (elapsed: real)
    modifies mc.sf`qMax, mc.sf`deltaQ, mc.sf`nIterAverage, mc.sf`speciesChars, mc.sf`bScatteringBySpecie,
             mc.sf`nCudaThreads, mc.sf`initLammpsFile, mc.sf`ouputFile, mc.sf.world`log, mc.sf.world`ticks
    modifies mc`maxIter, mc`msePrecission, mc`kt, mc`epsilonBounds, mc`sigmaBounds, mc`gdrRecords,
             mc`gdrInputFile, mc`gdrOutputFile, mc`sfRefFile, mc`outputMseFile
    ensures mc.Loaded(cfg)
    ensures mc.sf.world.log == old(mc.sf.world.log) + [Start, Cmd(Include(cfg.sf.initLammpsFile))]
    ensures CommandsOf(mc.sf.world.log) == CommandsOf(old(mc.sf.world.log)) + [Include(cfg.sf.initLammpsFile)]
  {
    elapsed := mc.LoadConfigFile(cfg);
    var t := mc.sf.InitLammps();
    elapsed := elapsed + t;
  }

  /** `reciprocalSpace` and `initStructureFactor`: the kernel session opened with phase 0. */
  method OpenSession(sf: StructureFactor) returns (elapsed: real)
    requires sf.Ready()
    modifies sf`sfCudaLib, sf.world`log, sf.world`acc, sf.world`ticks, sf.sQ
    ensures sf.sfCudaLib == StructureFactorEntry && sf.world.acc == []
    ensures sf.world.log == old(sf.world.log) + [Reciprocal, Kernel(0, sf.nIterAverage)]
    ensures CommandsOf(sf.world.log) == CommandsOf(old(sf.world.log))
    ensures sf.world.ticks == old(sf.world.ticks) + 2
    ensures elapsed == Readings(sf.world.stopwatch, old(sf.world.ticks), 2)
  {
    ghost var log0, t0 := sf.world.log, sf.world.ticks;
    elapsed := sf.ReciprocalSpace();
    ReadingsStep(sf.world.stopwatch, t0, 0);
    var t := sf.InitStructureFactor();
    ReadingsStep(sf.world.stopwatch, t0, 1);
    elapsed := elapsed + t;
    CommandsAppend(log0, [Reciprocal]);
    CommandsAppend(log0 + [Reciprocal], [Kernel(0, sf.nIterAverage)]);
    assert CommandsOf([Reciprocal]) == [] && CommandsOf([Kernel(0, sf.nIterAverage)]) == [];
  }

  /** The kernel session of main_sfmc.py: the session opened with phase 0, the Monte Carlo run,
      and the session released with phase -1. An exception in the run ends the program before
      the release. */
  method Fit(mc: StructureFactorMonteCarlo)
      returns (r: Result<real>, ghost initial: seq<real>, ghost start: Result<real>, ghost states: seq<Point>,
               ghost trials: seq<Trial>, ghost last: Trial, ghost su: Setup)
    requires mc.sf.Ready()
    modifies mc.sf`sfCudaLib, mc`epsilon, mc`sigma, mc`mse, mc.sf`rXYZ, mc.sf.sQ,
             mc.sf.world`log, mc.sf.world`acc, mc.sf.world`ticks, mc.sf.world`draws
    ensures su == old(mc.Settings()) && GridShaped(su)
    ensures 1 <= su.nIterAverage ==>
              initial == mc.sf.world.Spectrum(Snapshots(mc.sf.world.physics, CommandsOf(old(mc.sf.world.log)),
                                                        su.nIterAverage), su.qBoxes)
    ensures start == Score(mc.builtins, su.sQref, Prefix(initial, su.sQlen))
    ensures start.Err? ==> && r == Err(start.fault)
                           && mc.sf.world.log == old(mc.sf.world.log) + [Reciprocal, Kernel(0, su.nIterAverage)]
                                                 + Evaluation(su.nIterAverage)
    ensures start.Ok? ==> && Walk(su, states, trials)
                          && states[0] == Initial(old(mc.epsilon), old(mc.sigma), start.value)
    ensures start.Ok? && r.Ok? ==>
              && Stopped(su, states, trials)
              && mc.sf.world.log == old(mc.sf.world.log) + [Reciprocal, Kernel(0, su.nIterAverage)]
                                    + Evaluation(su.nIterAverage) + Opening(su, states[0])
                                    + Transcript(su, states, trials) + [Kernel(-1, su.nIterAverage)]
              && mc.sf.world.draws == old(mc.sf.world.draws) + |Draws(su, states, trials)|
              && DrawnFrom(mc.sf.world.random, old(mc.sf.world.draws), Draws(su, states, trials))
    ensures start.Ok? && r.Err? ==> && |trials| < su.maxIter && AboveTarget(su, states)
                                    && Iterate(su, states[|trials|], last) == Err(r.fault)
  {
    var elapsed := OpenSession(mc.sf);
    var found;
    found, initial, start, states, trials, last, su := mc.RunMonteCarlo();
    if found.Err? {
      return Err(found.fault), initial, start, states, trials, last, su;
    }
    var t := mc.sf.CleanStructureFactor();
    r := Ok(elapsed + found.value + t);
  }

  /** The settings a fit runs with when configured by `cfg`: the configured constants, the
      parameter ranges with their midpoints, and the q grid the evaluator derives. */
  ghost predicate Configured(su: Setup, cfg: McConfig, builtins: Builtins) {
    && su.epsilonBounds == WithMidrange(cfg.deltaEpsilon, cfg.minEpsilon, cfg.maxEpsilon)
    && su.sigmaBounds == WithMidrange(cfg.deltaSigma, cfg.minSigma, cfg.maxSigma)
    && su.kt == cfg.kt && su.msePrecission == cfg.msePrecission && su.maxIter == cfg.maxIter
    && su.nIterAverage == cfg.sf.nIterAverage && su.ouputFile == cfg.sf.ouputFile
    && su.gdrRecords == cfg.gdrRecords && su.gdrInputFile == cfg.gdrInputFile
    && su.gdrOutputFile == cfg.gdrOutputFile && su.outputMseFile == cfg.outputMseFile
    && su.builtins == builtins
    && QBoxes(cfg.sf.qMax, cfg.sf.deltaQ) == Ok(su.qBoxes)
    && su.centres == BinCentres(cfg.sf.deltaQ, su.qBoxes) && su.sQlen == su.qBoxes - 1
  }

  /** The Monte Carlo program: set-up, the kernel session around the fit, and the closing line.
      When the set-up succeeds the fit runs with the configured settings, the reference S(q) of
      the reference file, and the parameters and cut-off of the last `pair_coeff` line of the
      LAMMPS input file, scored on the S(q) sampled right after that file was read. On success
      the fit stopped by the stopping rule, and the kernel saw phase 0, one block 1..nIterAverage
      for the start and for every iteration, and -1. */
  method MainSfmc(world: World, builtins: Builtins, cfg: McConfig)
      returns (r: Result<real>, ghost start: Result<real>, ghost states: seq<Point>, ghost trials: seq<Trial>,
               ghost last: Trial, ghost su: Setup)
    requires world.Valid()
    modifies world`log, world`acc, world`ticks, world`draws
    ensures McSetUpFails(world, builtins, cfg) ==> r.Err? && world.draws == old(world.draws)
    ensures !McSetUpFails(world, builtins, cfg) ==>
              && Configured(su, cfg, builtins) && SecondColumn(world.tables(cfg.sfRefFile)) == Ok(su.sQref)
              && (1 <= cfg.sf.nIterAverage ==>
                    start == Score(builtins, su.sQref,
                                   Prefix(world.Spectrum(Snapshots(world.physics,
                                                                   CommandsOf(old(world.log)) + [Include(cfg.sf.initLammpsFile)],
                                                                   cfg.sf.nIterAverage), su.qBoxes), su.sQlen)))
              && (start.Ok? ==>
                    var c := ScanPairCoeff(builtins.parseFloat, world.textLines(cfg.sf.initLammpsFile),
                                           Coefficients(0.0, 0.0, 0.0)).value;
                    && Walk(su, states, trials) && su.rc == c.rc
                    && states[0] == Initial(c.epsilon, c.sigma, start.value))
    ensures r.Err? && !McSetUpFails(world, builtins, cfg) ==>
              || (start.Err? && r == Err(start.fault))
              || (start.Ok? && |trials| < su.maxIter && Iterate(su, states[|trials|], last) == Err(r.fault))
    ensures r.Ok? ==>
              && !McSetUpFails(world, builtins, cfg) && start.Ok? && Stopped(su, states, trials)
              && world.log == old(world.log) + [Start, Cmd(Include(cfg.sf.initLammpsFile)), Extract]
                                             + [Reciprocal, Kernel(0, cfg.sf.nIterAverage)]
                                             + Evaluation(cfg.sf.nIterAverage) + Opening(su, states[0])
                                             + Transcript(su, states, trials)
                                             + [Kernel(-1, cfg.sf.nIterAverage)] + [WallTimeLine(r.value)]
  {
    var sf := new StructureFactor(world);
    var mc := new StructureFactorMonteCarlo(sf, builtins);
    var init := McSetUp(mc, cfg);
    start, states, trials, last, su := Err(ValueError), [], [], Trial(0.0, 0.0, [], 0.0), mc.Settings();
    if init.Err? {
      return Err(init.fault), start, states, trials, last, su;
    }
    assert Configured(su, cfg, builtins);
    var found; ghost var initial;
    found, initial, start, states, trials, last, su := Fit(mc);
    if found.Err? {
      return Err(found.fault), start, states, trials, last, su;
    }
    var runTime := init.value + found.value;
    world.Emit(WallTimeLine(runTime));
    r := Ok(runTime);
  }

  /** A single event contributes its phase code when it is a kernel call. */
  lemma PhasesSingle(e: Event)
    ensures Phases([e]) == if e.Kernel? then [e.phase] else []
  {
    assert [e][1..] == [];
  }

  /** The codes of the calls that open and close a kernel session, between events that do not
      call the kernel. */
  lemma SessionEdges(head: seq<Event>, n: int, tail: seq<Event>)
    requires forall i :: 0 <= i < |head| ==> !head[i].Kernel?
    requires forall i :: 0 <= i < |tail| ==> !tail[i].Kernel?
    ensures Phases(head + [Reciprocal, Kernel(0, n)]) == [0]
    ensures Phases([Kernel(-1, n)] + tail) == [-1]
  {
    NoKernelPhases(head);
    NoKernelPhases(tail);
    assert [Reciprocal, Kernel(0, n)] == [Reciprocal] + [Kernel(0, n)];
    PhasesAppend([Reciprocal], [Kernel(0, n)]);
    PhasesAppend(head, [Reciprocal, Kernel(0, n)]);
    PhasesAppend([Kernel(-1, n)], tail);
    PhasesSingle(Reciprocal);
    PhasesSingle(Kernel(0, n));
    PhasesSingle(Kernel(-1, n));
  }

  lemma {:induction false} NoKernelPhases(es: seq<Event>)
    requires forall i :: 0 <= i < |es| ==> !es[i].Kernel?
    ensures Phases(es) == []
  {
    if es != [] {
      assert !es[0].Kernel?;
      NoKernelPhases(es[1..]);
    }
  }

  /** main_sf.py calls the kernel with exactly the codes 0, 1, ..., nIterAverage, -1. */
  lemma SfKernelProtocol(cfg: SfConfig, rows: seq<(real, real)>, e: Event)
    requires IsOutput(e)
    ensures Phases([Start, Cmd(Include(cfg.initLammpsFile)), Extract] + [Reciprocal, Kernel(0, cfg.nIterAverage)]
                   + Evaluation(cfg.nIterAverage)
                   + [Kernel(-1, cfg.nIterAverage), WriteSq(cfg.ouputFile, None, rows)] + [e])
            == [0] + Block(cfg.nIterAverage) + [-1]
  {
    var n := cfg.nIterAverage;
    var opening := [Start, Cmd(Include(cfg.initLammpsFile)), Extract] + [Reciprocal, Kernel(0, n)];
    var closing := [Kernel(-1, n), WriteSq(cfg.ouputFile, None, rows)];
    SessionEdges([Start, Cmd(Include(cfg.initLammpsFile)), Extract], n, [WriteSq(cfg.ouputFile, None, rows)]);
    assert closing == [Kernel(-1, n)] + [WriteSq(cfg.ouputFile, None, rows)];
    EvaluationProtocol(n);
    PhasesAppend(opening, Evaluation(n));
    PhasesAppend(opening + Evaluation(n), closing);
    PhasesAppend(opening + Evaluation(n) + closing, [e]);
    PhasesSingle(e);
  }

  /** Set-up, session start and one evaluation call the kernel with 0, 1, ..., n. */
  lemma OpenedPhases(file: string, n: int)
    ensures Phases([Start, Cmd(Include(file)), Extract] + [Reciprocal, Kernel(0, n)] + Evaluation(n))
            == [0] + Block(n)
  {
    SessionEdges([Start, Cmd(Include(file)), Extract], n, []);
    EvaluationProtocol(n);
    PhasesAppend([Start, Cmd(Include(file)), Extract] + [Reciprocal, Kernel(0, n)], Evaluation(n));
  }

  /** Output, then `run`, then the release, then output: the codes of `run` and -1. */
  lemma ClosedPhases(b: seq<Event>, opening: seq<Event>, run: seq<Event>, n: int, e: Event)
    requires forall i :: 0 <= i < |opening| ==> IsOutput(opening[i])
    requires IsOutput(e)
    ensures Phases(b + opening + run + [Kernel(-1, n)] + [e]) == Phases(b) + Phases(run) + [-1]
  {
    var x := b + opening;
    assert Phases(x) == Phases(b) by {
      OutputPhases(opening);
      PhasesAppend(b, opening);
    }
    var y := x + run;
    assert Phases(y) == Phases(b) + Phases(run) by {
      PhasesAppend(x, run);
    }
    var z := y + [Kernel(-1, n)];
    assert Phases(z) == Phases(y) + [-1] by {
      PhasesAppend(y, [Kernel(-1, n)]);
      PhasesSingle(Kernel(-1, n));
    }
    assert Phases(z + [e]) == Phases(z) by {
      PhasesAppend(z, [e]);
      PhasesSingle(e);
    }
  }

  /** The phase codes of a main_sfmc.py run whose headers are `opening` and whose iterations
      produced `run`: 0, a block for the start and the blocks of the iterations, -1. */
  lemma McPhases(file: string, n: int, opening: seq<Event>, run: seq<Event>, k: nat, e: Event)
    requires forall i :: 0 <= i < |opening| ==> IsOutput(opening[i])
    requires Phases(run) == Blocks(n, k) && IsOutput(e)
    ensures Phases([Start, Cmd(Include(file)), Extract] + [Reciprocal, Kernel(0, n)] + Evaluation(n)
                   + opening + run + [Kernel(-1, n)] + [e])
            == [0] + Blocks(n, k + 1) + [-1]
  {
    OpenedPhases(file, n);
    ClosedPhases([Start, Cmd(Include(file)), Extract] + [Reciprocal, Kernel(0, n)] + Evaluation(n), opening, run, n, e);
    BlocksCons(n, k);
    assert [0] + Block(n) + Blocks(n, k) + [-1] == [0] + (Block(n) + Blocks(n, k)) + [-1];
  }

  /** main_sfmc.py calls the kernel with 0 once, first, and -1 once, last; every code between
      them is an accumulate code 1..nIterAverage. */
  lemma McKernelProtocol(su: Setup, states: seq<Point>, trials: seq<Trial>, file: string, e: Event)
    requires GridShaped(su) && Walk(su, states, trials) && IsOutput(e)
    ensures var p := Phases([Start, Cmd(Include(file)), Extract] + [Reciprocal, Kernel(0, su.nIterAverage)]
                            + Evaluation(su.nIterAverage) + Opening(su, states[0])
                            + Transcript(su, states, trials)
                            + [Kernel(-1, su.nIterAverage)] + [e]);
            && |p| == (|trials| + 1) * |Block(su.nIterAverage)| + 2
            && p[0] == 0 && p[|p| - 1] == -1
            && forall i :: 0 < i < |p| - 1 ==> 1 <= p[i] <= su.nIterAverage
  {
    TranscriptPhases(su, states, trials);
    McPhases(file, su.nIterAverage, Opening(su, states[0]), Transcript(su, states, trials), |trials|, e);
    FramedBlocks(su.nIterAverage, |trials| + 1);
  }

  /** `k` blocks framed by 0 and -1: the codes between the frame are all accumulate codes. */
  lemma FramedBlocks(n: int, k: nat)
    ensures var p := [0] + Blocks(n, k) + [-1];
            && |p| == k * |Block(n)| + 2
            && p[0] == 0 && p[|p| - 1] == -1
            && forall i :: 0 < i < |p| - 1 ==> 1 <= p[i] <= n
  {
    var b := Blocks(n, k);
    BlocksRange(n, k);
    BlocksLength(n, k);
    var p := [0] + b + [-1];
    forall i | 0 < i < |p| - 1
      ensures 1 <= p[i] <= n
    {
      assert p[i] == b[i - 1];
    }
  }
}
