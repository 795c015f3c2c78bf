# mc_structurefactor in Dafny

A model of the Python driver layer of `mc_structurefactor` (directory `lennard_jones/python`). The
layer computes the static structure factor S(q) of a Lennard-Jones system simulated by LAMMPS,
using the CUDA library `sfGpuLib.so`. On top of that it fits the Lennard-Jones parameters epsilon
and sigma to a reference S(q) with a Metropolis Monte Carlo search.

The model has these parts:

- `Environment` stands for everything the Python code calls but does not implement. A `World`
  object records every call made on these collaborators, in order, as a log of events:
  - the LAMMPS instance: the commands it received, and the atom positions as a function of those
    commands;
  - the two kernel entry points, `reciprocalSpace` and the phase-coded `structureFactor`
    (0 opens the session, 1..nIterAverage accumulate one snapshot each, -1 releases it);
  - the wall clock, as a stream of readings;
  - Python's `random()`, as a stream of draws in [0, 1);
  - the files read, and every file write, shell call and console line.

  The kernel keeps a running list of snapshots. The call with phase nIterAverage writes
  `kernelSq(snapshots, i)` into bin `i` of the caller's S(q) buffer. The scattering sum itself is
  not modelled.
- `Outcomes` and `PythonOps` cover the Python semantics the code relies on:
  - exceptions, as a `Result`;
  - `int()` truncation and `divmod` on floats;
  - sequence indexing with negative indices;
  - `str.split()` and `str.startswith`.
- `Evaluator` is the class `StructureFactor`:
  - the q grid and the per-atom scattering weights;
  - the transposed position snapshots;
  - one evaluation (`runStructureFactor`) as a loop of kernel calls, `run 1000` advances and
    extractions;
  - the kernel session, and the S(q) file.
- `Search` is the Metropolis search as a state machine over reals:
  - the bounded proposal;
  - the root-sum-of-squares score;
  - the acceptance rule;
  - the bookkeeping of one iteration;
  - whole walks, with the events and draws they produce.
- `MonteCarlo` is the class `StructureFactorMonteCarlo`. It holds the evaluator as the field `sf`,
  where Python inherits from it. It covers:
  - the configuration with the range midpoints;
  - the reference S(q) and the `pair_coeff` scan;
  - `runMonteCarlo` as an imperative loop, proved against the walk of `Search`;
  - `writeOutput(step)`.
- `Drivers` is the two programs `main_sf.py` and `main_sfmc.py`:
  - their life cycles;
  - the run time they sum;
  - its printout as days, hours, minutes and seconds;
  - the whole sequence of kernel phase codes each program issues.

`math.exp`, `math.sqrt` and `float()` of a string are parameters (`Search.Builtins`). The proofs
assume only that exp is positive with exp(0) = 1, and that sqrt is the non-negative square root.

## Model

| member | source | states |
|---|---|---|
| `Environment.World.StructureFactor` | lennard_jones/python/StructureFactor.py:163-179 | A kernel call logs its phase and nIterAverage. Phase 0 empties the running sum, 1 restarts it with this snapshot, 2..nIterAverage add it, and any other code leaves it alone. The S(q) buffer changes only on the finalising call. |
| `Environment.World.ExtractPositions` | lennard_jones/python/StructureFactor.py:222 | The positions extracted are those LAMMPS reaches after the commands issued so far. Extraction sends no command. |
| `Environment.World.Send` | lennard_jones/python/StructureFactor.py:39 | A command is logged and becomes the last command LAMMPS has received. |
| `Environment.World.Elapsed` | lennard_jones/python/StructureFactor.py:31-33 | Each duration a step returns is the next reading of the clock stream. |
| `Environment.World.Random` | lennard_jones/python/StructureFactorMonteCarlo.py:83 | `random()` returns the next draw of the stream, and every draw lies in [0, 1). |
| `PythonOps.Trunc` | lennard_jones/python/StructureFactor.py:50 | `int()` rounds towards zero: below x for x >= 0, above it for x < 0, and within one of x. |
| `PythonOps.DivMod` | lennard_jones/python/main_sf.py:15-17 | Float `divmod` by a positive divisor gives a whole quotient and a remainder in [0, divisor) that recombine to the dividend. |
| `PythonOps.Index` | lennard_jones/python/StructureFactor.py:65 | Python indexing succeeds exactly for -len <= k < len. A negative index counts from the end; any other index raises. |
| `PythonOps.Split` | lennard_jones/python/StructureFactorMonteCarlo.py:52 | `str.split()` yields only non-empty words without whitespace. |
| `PythonOps.SplitGaps` | lennard_jones/python/StructureFactorMonteCarlo.py:52 | `str.split()` cuts at maximal runs. The line is gap, word, gap, ..., word, gap, with every gap whitespace only and every gap between two words non-empty. So the i-th word is the i-th maximal run of non-whitespace. |
| `PythonOps.SplitKeepsText` | lennard_jones/python/StructureFactorMonteCarlo.py:52 | The words of `split()`, concatenated, are the line with its whitespace removed: no character is lost or invented. |
| `Evaluator.QBoxes` | lennard_jones/python/StructureFactor.py:50 | The bin count fails exactly when the bin width is zero, with ZeroDivisionError. |
| `Evaluator.GridCoversQMax` | lennard_jones/python/StructureFactor.py:50-52 | For qMax >= 0 and deltaQ > 0, qBoxes = floor(qMax/deltaQ) + 1, so qMax lies inside the last bin. |
| `Evaluator.BinCentres` | lennard_jones/python/StructureFactor.py:53-59 | There is one centre per bin. |
| `Evaluator.CentresInsideGrid` | lennard_jones/python/StructureFactor.py:53-59 | Centre j lies strictly inside bin j, and every centre written out lies strictly inside (0, qMax). |
| `Evaluator.LastBinNeverWritten` | lennard_jones/python/StructureFactor.py:215-216 | With a non-zero width, no written row carries the last bin's centre. |
| `Evaluator.Weights` | lennard_jones/python/StructureFactor.py:63-65 | The weights succeed exactly when every atom type indexes a species, otherwise IndexError. The vector has nAtoms entries. Atom i gets species type-1 for a type >= 1, and the wrapped species for a type <= 0. |
| `Evaluator.TransposeEntries` | lennard_jones/python/StructureFactor.py:222-223 | The snapshot has one row per coordinate and one column per atom, with entry (d, a) equal to coordinate d of atom a. |
| `Evaluator.TransposeTwice` | lennard_jones/python/StructureFactor.py:223 | Transposing the snapshot back gives the positions, so the layout change loses nothing. |
| `Evaluator.AccumulationsPhases` | lennard_jones/python/StructureFactor.py:162-179 | The accumulate steps call the kernel with 1, 2, ..., k, in that order. |
| `Evaluator.AccumulationsCounts` | lennard_jones/python/StructureFactor.py:162-185 | k accumulate steps make 3k calls: k kernel calls, k `run 1000` and k extractions. |
| `Evaluator.KernelCallsAdvance` | lennard_jones/python/StructureFactor.py:170-182 | Every accumulate call passes the same nIterAverage and is immediately followed by `run 1000`, the last one included. |
| `Evaluator.AccumulationsCommands` | lennard_jones/python/StructureFactor.py:182 | The only commands of k accumulate steps are k `run 1000`. |
| `Evaluator.EvaluationCommands` | lennard_jones/python/StructureFactor.py:159-183 | After an evaluation's first k steps, LAMMPS has received exactly the earlier commands plus k advances. |
| `Evaluator.EvaluationProtocol` | lennard_jones/python/StructureFactor.py:159-185 | One evaluation calls the kernel with 1..nIterAverage in order, each with the same nIterAverage. It runs nIterAverage advances, each right after a kernel call, and extracts nIterAverage+1 times, first before any advance. |
| `Evaluator.StructureFactor.LoadConfigFile` | lennard_jones/python/StructureFactor.py:14-33 | The object holds the configuration given, and the step returns one clock reading. |
| `Evaluator.StructureFactor.InitLammps` | lennard_jones/python/StructureFactor.py:35-42 | A LAMMPS instance is started and receives exactly one command, `include` of the configured file. |
| `Evaluator.StructureFactor.InitVariables` | lennard_jones/python/StructureFactor.py:44-77 | It fails exactly on a zero bin width, a negative bin count or an atom type that indexes no species. On success the grid, the buffer of qBoxes bins and the weights are set, the first snapshot is the transposed current positions, one extraction is logged and no command is sent. |
| `Evaluator.StructureFactor.InitGrid` | lennard_jones/python/StructureFactor.py:47-59 | The grid part fails exactly on a zero width or negative count. On success qBoxes, sQlen = qBoxes-1, the new buffer and the centres are set. |
| `Evaluator.StructureFactor.InitWeights` | lennard_jones/python/StructureFactor.py:61-65 | The weight part fails exactly when some type indexes no species. On success every atom with a type >= 1 weighs its species' scattering length. |
| `Evaluator.StructureFactor.ReciprocalSpace` | lennard_jones/python/StructureFactor.py:79-110 | The entry point is bound to reciprocalSpace and called exactly once. |
| `Evaluator.StructureFactor.InitStructureFactor` | lennard_jones/python/StructureFactor.py:112-153 | The entry point is rebound to structureFactor and phase 0 is issued once. The running sum is emptied, the buffer is untouched and nothing is sent to LAMMPS. |
| `Evaluator.StructureFactor.RunStructureFactor` | lennard_jones/python/StructureFactor.py:155-187 | One evaluation logs exactly the protocol events. For nIterAverage >= 1, the kernel sum is the nIterAverage snapshots after 0..nIterAverage-1 advances, and the buffer is their S(q). Otherwise both stay as they were. The stored snapshot is the configuration after all max(nIterAverage, 0) advances. |
| `Evaluator.StructureFactor.Sample` | lennard_jones/python/StructureFactor.py:159-185 | The extraction and the `iter` loop, between the clock readings, have the same effect as one evaluation: the same log, running sum, S(q) buffer and final snapshot. |
| `Evaluator.StructureFactor.Evaluated` | lennard_jones/python/StructureFactor.py:162-185 | When the loop ends after max(nIterAverage, 0) steps, the log, the running sum, the buffer and the stored snapshot are those of a whole evaluation. |
| `Evaluator.StructureFactor.Accumulate` | lennard_jones/python/StructureFactor.py:163-183 | One pass (kernel call with phase iter, `run 1000`, extraction) extends the evaluation state from iter-1 to iter steps. |
| `Evaluator.StructureFactor.CleanStructureFactor` | lennard_jones/python/StructureFactor.py:189-209 | Phase -1 is issued once. The running sum and the S(q) buffer are kept and nothing is sent to LAMMPS. |
| `Evaluator.StructureFactor.SqRows` | lennard_jones/python/StructureFactor.py:215-216 | The rows are (deltaQVector[i], sQ[i]) for i in range(sQlen). |
| `Evaluator.StructureFactor.WriteOutput` | lennard_jones/python/StructureFactor.py:211-219 | The S(q) file is written once, without a header, with the sQlen rows of every bin but the last. |
| `Evaluator.StructureFactor.LammpsExtractAtoms` | lennard_jones/python/StructureFactor.py:221-224 | The stored snapshot is the transpose of the positions LAMMPS holds now. One extraction is logged and no command is sent. |
| `Search.WithMidrange` | lennard_jones/python/StructureFactorMonteCarlo.py:25-32 | The stored midpoint is equidistant from both bounds and lies between them when min <= max. |
| `Search.ProposalInRange` | lennard_jones/python/StructureFactorMonteCarlo.py:83-88 | A raw step inside [min, max] is kept, and any other step is replaced by the midpoint, never clamped to a bound. With min <= max the proposal lies in [min, max]. |
| `Search.ProposalStep` | lennard_jones/python/StructureFactorMonteCarlo.py:83 | For a draw in [0, 1) and delta >= 0, the raw step moves at most delta from the current value. |
| `Search.Residuals` | lennard_jones/python/StructureFactorMonteCarlo.py:66 | `numpy.subtract` fails with ValueError exactly when the lengths differ and neither is 1. Equal lengths subtract elementwise. |
| `Search.Score` | lennard_jones/python/StructureFactorMonteCarlo.py:65-67 | The score raises exactly when the reference and the written bins cannot be subtracted. |
| `Search.Prefix` | lennard_jones/python/StructureFactorMonteCarlo.py:66 | `sQ[:sQlen]` is the first sQlen bins, or all but the last -sQlen for a negative bound. |
| `Search.ScoreMeaning` | lennard_jones/python/StructureFactorMonteCarlo.py:95-97 | A score is never negative, and a candidate equal to the reference scores 0. |
| `Search.ScoreExample` | lennard_jones/python/StructureFactorMonteCarlo.py:95-97 | The candidate [0, 0] against the reference [3, 4] scores 5: the root of the summed squares, not the mean. |
| `Search.Judge` | lennard_jones/python/StructureFactorMonteCarlo.py:98-112 | An improvement is accepted without the Boltzmann test. Otherwise, for kt ≠ 0, acceptance holds iff exp(-(mseTmp-mse)/kt) > u. For kt = 0 the float64 division gives inf or nan, exp of which never exceeds the draw, so a candidate is accepted iff it improves. msePass and bolzPass are never both true. |
| `Search.TieAccepted` | lennard_jones/python/StructureFactorMonteCarlo.py:105-107 | A candidate that scores the same as the current one passes the Boltzmann test when kt ≠ 0 (exp(0) = 1 beats every draw) and fails it when kt = 0 (exp(nan) compares false). |
| `Search.Iterate` | lennard_jones/python/StructureFactorMonteCarlo.py:82-114 | An iteration fails exactly when the reference and the written bins cannot be subtracted, and then with ValueError; the acceptance test never raises. A successful iteration counts exactly one more iteration. |
| `Search.GreedyAtZero` | lennard_jones/python/StructureFactorMonteCarlo.py:98-112 | With kt = 0 a candidate is accepted exactly when it improves on the current score, so the current score never rises. |
| `Search.DescentAtZero` | lennard_jones/python/StructureFactorMonteCarlo.py:81-112 | With kt = 0 the current score never rises along a walk. |
| `Search.AcceptOrKeep` | lennard_jones/python/StructureFactorMonteCarlo.py:98-114 | On acceptance, epsilon, sigma and mse all take the candidate's values and nAccept rises by 1. On rejection all of them stay. The best score becomes the smaller of the old best and the new score. |
| `Search.CheckpointMeaning` | lennard_jones/python/StructureFactorMonteCarlo.py:113-123 | A checkpoint (writeOutput and tail) happens iff the candidate was accepted and strictly beats the best score, which then drops to it. |
| `Search.WalkExtend` | lennard_jones/python/StructureFactorMonteCarlo.py:81-137 | One more successful iteration extends a walk and appends exactly its events and its draws. |
| `Search.RecordedStep` | lennard_jones/python/StructureFactorMonteCarlo.py:81-137 | A log and a draw counter that record a walk still record it after one more iteration. |
| `Search.AboveTargetExtend` | lennard_jones/python/StructureFactorMonteCarlo.py:135-137 | A state at or above the precision keeps the walk unconverged. |
| `Search.WalkAt` | lennard_jones/python/StructureFactorMonteCarlo.py:68-124 | After k iterations mcIter = k, nAccept <= k, the best score is the minimum of all scores so far, and it is at most the current score. |
| `Search.BestNeverRises` | lennard_jones/python/StructureFactorMonteCarlo.py:113-114 | The best score never rises along a walk. |
| `Search.AcceptanceRateBounded` | lennard_jones/python/StructureFactorMonteCarlo.py:124 | The printed acceptance rate nAccept/mcIter lies in [0, 1] after every iteration. |
| `Search.EventsPhases` | lennard_jones/python/StructureFactorMonteCarlo.py:89-93 | One iteration calls the kernel with exactly one block 1..nIterAverage. |
| `Search.TranscriptPhases` | lennard_jones/python/StructureFactorMonteCarlo.py:81-137 | The iterations of a walk call the kernel with one block 1..nIterAverage per iteration and no other code. |
| `MonteCarlo.SecondColumn` | lennard_jones/python/StructureFactorMonteCarlo.py:46-47 | The reference loads exactly when the table is rectangular with at least two rows and two columns. It is then the second column, row by row. |
| `MonteCarlo.PairCoeffFields` | lennard_jones/python/StructureFactorMonteCarlo.py:52-55 | Fields 3, 4 and 5 give epsilon, sigma and rc when all are present and numeric. A missing field raises IndexError and a malformed one ValueError, whichever comes first. |
| `MonteCarlo.ScanFails` | lennard_jones/python/StructureFactorMonteCarlo.py:49-55 | Reading the LAMMPS input fails exactly when some `pair_coeff` line is malformed. |
| `MonteCarlo.ScanUntouched` | lennard_jones/python/StructureFactorMonteCarlo.py:48-55 | Without a `pair_coeff` line, the starting values (0.0) stay. |
| `MonteCarlo.ScanLastWins` | lennard_jones/python/StructureFactorMonteCarlo.py:49-55 | A successful read takes all three coefficients from the last `pair_coeff` line. |
| `MonteCarlo.DrawSteps` | lennard_jones/python/StructureFactorMonteCarlo.py:83-107 | An iteration draws twice for the proposals and a third time only when the candidate is no better, in that order. |
| `MonteCarlo.IterationSteps` | lennard_jones/python/StructureFactorMonteCarlo.py:82-134 | The proposal, `pair_coeff`/`run 50000`, evaluation, score, verdict and bookkeeping, taken in source order, make up exactly one `Iterate` step and its events. |
| `MonteCarlo.StructureFactorMonteCarlo.LoadConfigFile` | lennard_jones/python/StructureFactorMonteCarlo.py:18-40 | Both classes' keys hold the configuration given, and each range carries its midpoint. |
| `MonteCarlo.StructureFactorMonteCarlo.InitVariables` | lennard_jones/python/StructureFactorMonteCarlo.py:42-59 | It fails exactly when the evaluator's set-up fails, the reference has no second column or a `pair_coeff` line is malformed. On success the reference is the file's second column, and epsilon, sigma and rc are those of the scan. The configuration is unchanged. |
| `MonteCarlo.StructureFactorMonteCarlo.InitReference` | lennard_jones/python/StructureFactorMonteCarlo.py:46-55 | The reference and the coefficients load exactly when both reads succeed, and then hold what the reads give. |
| `MonteCarlo.StructureFactorMonteCarlo.ReadPairCoeff` | lennard_jones/python/StructureFactorMonteCarlo.py:49-55 | The `for line in file` loop ends with the scan's coefficients, or fails exactly when the scan does. |
| `MonteCarlo.StructureFactorMonteCarlo.PrefixFails` | lennard_jones/python/StructureFactorMonteCarlo.py:49-55 | A malformed line early in the file makes the whole read fail. |
| `MonteCarlo.StructureFactorMonteCarlo.WriteOutput` | lennard_jones/python/StructureFactorMonteCarlo.py:142-153 | The checkpoint file has a header with the step, score, epsilon, sigma and rc, then every bin but the last. |
| `MonteCarlo.StructureFactorMonteCarlo.ProposeParameters` | lennard_jones/python/StructureFactorMonteCarlo.py:83-88 | Epsilon and sigma are proposed from two successive draws, each kept in its range or replaced by its midpoint. |
| `MonteCarlo.StructureFactorMonteCarlo.TryCandidate` | lennard_jones/python/StructureFactorMonteCarlo.py:89-93 | The candidate is sent as `pair_coeff` with the unchanged rc, then `run 50000`, then one evaluation. The S(q) left in the buffer is that of the nIterAverage snapshots simulated after those two commands, and the time is one clock reading. |
| `MonteCarlo.StructureFactorMonteCarlo.Decide` | lennard_jones/python/StructureFactorMonteCarlo.py:98-107 | The verdict is the acceptance rule. A draw is consumed exactly when the candidate is no better, whatever kt is. |
| `MonteCarlo.StructureFactorMonteCarlo.Record` | lennard_jones/python/StructureFactorMonteCarlo.py:113-136 | It logs the checkpoint and tail when asked, an MSE row for an accepted candidate, the console line with the acceptance rate, and the convergence notice below the precision. |
| `MonteCarlo.StructureFactorMonteCarlo.Conclude` | lennard_jones/python/StructureFactorMonteCarlo.py:98-134 | The fields and counters move as `Advance` says. The checkpoint is taken exactly when the new best is below the old one. |
| `MonteCarlo.StructureFactorMonteCarlo.Iteration` | lennard_jones/python/StructureFactorMonteCarlo.py:82-136 | One pass of the loop performs one `Iterate` step from the current state. It logs exactly that step's events and takes exactly its draws, or fails with that step's exception (the score's ValueError). |
| `MonteCarlo.StructureFactorMonteCarlo.Stride` | lennard_jones/python/StructureFactorMonteCarlo.py:81-137 | One pass extends the walk, its recorded log and its draws. |
| `MonteCarlo.StructureFactorMonteCarlo.Open` | lennard_jones/python/StructureFactorMonteCarlo.py:69-80 | Before the loop the MSE file is opened with its header and the starting row, and the console header and starting line are printed. |
| `MonteCarlo.StructureFactorMonteCarlo.Search` | lennard_jones/python/StructureFactorMonteCarlo.py:81-137 | The loop performs a walk from the starting state. It stops after maxIter iterations, or right after the first iteration that brings the score below the precision (the starting score is not tested). The log and draws are exactly the walk's. A raised exception ends it early. |
| `MonteCarlo.StructureFactorMonteCarlo.Explore` | lennard_jones/python/StructureFactorMonteCarlo.py:69-137 | The `with` block writes the headers, then performs the search with the same stopping rule. |
| `MonteCarlo.StructureFactorMonteCarlo.Evaluate` | lennard_jones/python/StructureFactorMonteCarlo.py:63-67 | The starting parameters are evaluated once, and their score is taken over the written bins of that S(q). The stored snapshot is the one after the evaluation's advances, and the returned time is one clock reading. |
| `MonteCarlo.StructureFactorMonteCarlo.RunMonteCarlo` | lennard_jones/python/StructureFactorMonteCarlo.py:61-140 | One evaluation gives the starting score, or its exception with nothing written. From there a walk starts at the current epsilon and sigma with nAccept = mcIter = 0 and mseMin = mse. On success it obeys the stopping rule and the log is the evaluation, the headers and the walk's events. |
| `Drivers.WallTime` | lennard_jones/python/main_sf.py:15-17 | The three divmods split the run time into whole days, hours < 24, minutes < 60 and seconds < 60 that recombine to the run time. |
| `Drivers.WallTimeDigits` | lennard_jones/python/main_sf.py:15-20 | For a run time >= 0, the printed integer parts are the whole seconds in mixed radix, each below its radix. |
| `Drivers.SetUp` | lennard_jones/python/main_sf.py:6-8 | Configuration, LAMMPS and initVariables fail exactly for a zero width, a negative count or an unindexable type. On success the log is start, include, extract and the time is the sum of three readings. |
| `Drivers.Session` | lennard_jones/python/main_sf.py:9-13 | The calls run as reciprocalSpace, phase 0, one evaluation, phase -1, then the S(q) file of the buffer that evaluation left. The time is the sum of five readings. |
| `Drivers.RunAndClean` | lennard_jones/python/main_sf.py:11-12 | One evaluation then the release. The buffer holds the S(q) of that evaluation's snapshots. |
| `Drivers.OpenSession` | lennard_jones/python/main_sf.py:9-10 | reciprocalSpace is called once, right before phase 0. The running sum is empty and no command is sent. |
| `Drivers.MainSf` | lennard_jones/python/main_sf.py:4-20 | The program fails exactly when the set-up does. Otherwise the whole log is the eight steps in source order followed by the wall-time line. The S(q) written is that of the snapshots after `include`. runTime is the sum of the eight readings. |
| `Drivers.ProgramReadings` | lennard_jones/python/main_sf.py:6-13 | The eight readings of main_sf.py add up as the set-up's three plus the session's five. |
| `Drivers.SfKernelProtocol` | lennard_jones/python/main_sf.py:9-13 | The kernel sees exactly 0, 1, ..., nIterAverage, -1. |
| `Drivers.McLoad` | lennard_jones/python/main_sfmc.py:6-7 | The configuration is loaded and LAMMPS started with the one `include`. |
| `Drivers.McSetUp` | lennard_jones/python/main_sfmc.py:6-8 | The Monte Carlo set-up fails exactly in the failing configurations. On success the reference and the starting coefficients are those of the files. |
| `Drivers.Fit` | lennard_jones/python/main_sfmc.py:9-12 | Phase 0, the Monte Carlo run, then phase -1 only when the run succeeds. The walk's settings are those loaded. |
| `Drivers.MainSfmc` | lennard_jones/python/main_sfmc.py:4-19 | A failing set-up or a first score that raises makes it fail; any other failure is an iteration whose score raised ValueError. On success the fit starts from the last `pair_coeff` line, is scored against the reference file and obeys the stopping rule. The log is the seven steps in source order with the walk's events inside, then the wall-time line. |
| `Drivers.McPhases` | lennard_jones/python/main_sfmc.py:9-12 | A run with k iterations issues 0, then k+1 blocks 1..nIterAverage, then -1. |
| `Drivers.McKernelProtocol` | lennard_jones/python/main_sfmc.py:10-12 | The kernel sees 0 once and first, and -1 once and last. Every code in between is 1..nIterAverage, (k+1)·nIterAverage codes in all. |

## Left out

- LAMMPS, the CUDA kernels, the clock, `random()` and the files are parameters of a `World`. Their
  physics, the scattering sum, GPU parallelism and the `timeFortran` value reported by the kernel
  are not modelled. Each step's duration is one reading of the clock stream.
- `configparser`, `numpy.loadtxt` parsing, and float formatting of written and printed numbers are
  not modelled. The configuration arrives as a datatype, tables as rows of reals, and output as
  logged events carrying the values.
- Floating point is not modelled: float32/float64 storage, rounding and `math.exp` overflow are
  ignored, and all numbers are reals. `exp`, `sqrt` and `float()` are parameters.
- The ctypes set-up (`argtypes`, pointers) is not modelled. The `_rcDiv2`/`_rcDiv4` fields are
  assigned but never read, and are left out.
- `plot_results.py` is not part of this model.
- `Drivers.MainSfmc`: it does not state that runTime is the sum of the readings. Their number
  depends on the length of the walk, and the source sums time differences inside the loop.
- `Drivers.Fit`: its returned time is not related to the clock readings, for the same reason.
- `MonteCarlo.StructureFactorMonteCarlo.RunMonteCarlo`: its returned time is not stated, for the
  same reason.
- `MonteCarlo.StructureFactorMonteCarlo.Search`: likewise.
- `MonteCarlo.StructureFactorMonteCarlo.Explore`: likewise.
- `MonteCarlo.StructureFactorMonteCarlo.WriteOutput`: its clock reading is not stated, because
  `runMonteCarlo` discards it.
- The search takes each candidate's S(q) as the `spectrum` of its `Trial`. `TryCandidate` ties
  that S(q) to the simulated snapshots, but a walk by itself does not.

## Behaviours of the code worth knowing

- An atom type of 0 or below wraps round to a species from the end (Python negative indexing)
  instead of raising. Only types below 1 - nSpecies or above nSpecies raise IndexError.
- A candidate whose score equals the current and best score is accepted when kt ≠ 0. When kt = 0
  the float64 division gives nan and the candidate is rejected, with the draw still taken. An
  accepted tie writes no checkpoint, since the test is strictly below.
