/**
 * The Metropolis search of lennard_jones/python/StructureFactorMonteCarlo.py as a state machine
 * over reals: the bounded proposal of epsilon and sigma, the root-sum-of-squares score of a
 * candidate S(q) against the reference, the acceptance rule, and the bookkeeping of one
 * iteration (counters, best score so far, checkpoints, MSE-file rows and console lines).
 */
module Search {
  import opened Outcomes
  import opened PythonOps
  import opened Environment
  import opened Evaluator

  /** The LAMMPS steps run after every proposal, before the candidate is evaluated. */
  const EquilibrationSteps := 50000

  /** `math.exp`, `math.sqrt` and `float()` of a string, which the model does not compute. */
  datatype Builtins = Builtins(exp: real -> real, sqrt: real -> real, parseFloat: string -> Option<real>)

  /** The properties of exp and sqrt the proofs rely on. */
  ghost predicate Sound(b: Builtins) {
    && (forall x :: b.exp(x) > 0.0)
    && b.exp(0.0) == 1.0
    && (forall x :: 0.0 <= x ==> 0.0 <= b.sqrt(x) && b.sqrt(x) * b.sqrt(x) == x)
    && b.sqrt(0.0) == 0.0
  }

  // ---------------------------------------------------------------- proposals

  /** The step size, the admissible range and its midpoint of one parameter. */
  datatype Bounds = Bounds(delta: real, min: real, max: real, midrange: real)

  /** The midpoint the configuration loader stores with the bounds. */
  function WithMidrange(delta: real, min: real, max: real): (b: Bounds)
    ensures b.delta == delta && b.min == min && b.max == max
    ensures min <= max ==> min <= b.midrange <= max
    ensures b.midrange - min == max - b.midrange
  {
    Bounds(delta, min, max, (max + min) / 2.0)
  }

  /** `current + delta * (2u - 1)` for the draw u. */
  function RawProposal(current: real, b: Bounds, u: real): real {
    current + b.delta * (2.0 * u - 1.0)
  }

  /** The proposal kept if it lies in [min, max], otherwise replaced by the midpoint. */
  function Propose(current: real, b: Bounds, u: real): real {
    var x := RawProposal(current, b, u);
    if x < b.min || x > b.max then b.midrange else x
  }

  /** A proposal is the raw step when that lies in range and the midpoint otherwise: it is never
      clamped to the nearer bound. With min <= max it always lies in [min, max]. */
  lemma ProposalInRange(current: real, b: Bounds, u: real)
    requires b == WithMidrange(b.delta, b.min, b.max)
    ensures var x, p := RawProposal(current, b, u), Propose(current, b, u);
            && (b.min <= x <= b.max ==> p == x)
            && (!(b.min <= x <= b.max) ==> p == (b.min + b.max) / 2.0)
            && (b.min <= b.max ==> b.min <= p <= b.max)
  {
  }

  /** For a draw in [0, 1) and a non-negative step, the raw proposal moves by less than the step
      upwards and by at most the step downwards. */
  lemma ProposalStep(current: real, b: Bounds, u: real)
    requires 0.0 <= u < 1.0 && 0.0 <= b.delta
    ensures current - b.delta <= RawProposal(current, b, u) <= current + b.delta
  {
    var w := 2.0 * u - 1.0;
    assert -1.0 <= w < 1.0;
    ProductNonNegative(b.delta, w + 1.0);
    ProductNonNegative(b.delta, 1.0 - w);
    assert b.delta * (w + 1.0) == b.delta * w + b.delta;
    assert b.delta * (1.0 - w) == b.delta - b.delta * w;
  }

  lemma ProductNonNegative(a: real, b: real)
    requires 0.0 <= a && 0.0 <= b
    ensures 0.0 <= a * b
  {
  }

  lemma ProductPositive(a: real, b: real)
    requires 0.0 < a && 0.0 < b
    ensures 0.0 < a * b
  {
  }

  /** Squaring is strictly increasing on the non-negative reals. */
  lemma SquareMono(x: real, y: real)
    requires 0.0 <= x < y
    ensures x * x < y * y
  {
    var d := y - x;
    ProductNonNegative(x, d);
    ProductPositive(y, d);
    var xx, xy, yy := x * x, x * y, y * y;
    assert x * d == xy - xx;
    assert y * d == yy - xy;
  }

  // ---------------------------------------------------------------- the score

  /** `numpy.subtract(ref, x)` on 1-D arrays: equal lengths, or one side of length 1 broadcast
      against the other; any other pair of lengths raises ValueError. */
  function Residuals(ref: seq<real>, x: seq<real>): (r: Result<seq<real>>)
    ensures r.Err? <==> |ref| != |x| && |ref| != 1 && |x| != 1
    ensures r.Err? ==> r.fault == ValueError
    ensures |ref| == |x| ==> r == Ok(seq(|ref|, i requires 0 <= i < |ref| => ref[i] - x[i]))
  {
    if |ref| == |x| then Ok(seq(|ref|, i requires 0 <= i < |ref| => ref[i] - x[i]))
    else if |ref| == 1 then Ok(seq(|x|, i requires 0 <= i < |x| => ref[0] - x[i]))
    else if |x| == 1 then Ok(seq(|ref|, i requires 0 <= i < |ref| => ref[i] - x[0]))
    else Err(ValueError)
  }

  function SumSquares(d: seq<real>): real {
    if d == [] then 0.0 else d[0] * d[0] + SumSquares(d[1..])
  }

  lemma {:induction false} SumSquaresNonNegative(d: seq<real>)
    ensures SumSquares(d) >= 0.0
  {
    if d != [] {
      SumSquaresNonNegative(d[1..]);
    }
  }

  /** A sum of squares vanishes when every term does. */
  lemma {:induction false} SumSquaresZero(d: seq<real>)
    requires forall i :: 0 <= i < |d| ==> d[i] == 0.0
    ensures SumSquares(d) == 0.0
  {
    if d != [] {
      assert forall i :: 0 <= i < |d| - 1 ==> d[1..][i] == d[i + 1];
      SumSquaresZero(d[1..]);
    }
  }

  /** `sqrt(sum(square(subtract(ref, x))))`. */
  function Score(b: Builtins, ref: seq<real>, x: seq<real>): (r: Result<real>)
    ensures r.Err? <==> Residuals(ref, x).Err?
  {
    match Residuals(ref, x)
    case Err(f) => Err(f)
    case Ok(d) => Ok(b.sqrt(SumSquares(d)))
  }

  /** The score is never negative, and it is 0 when the candidate equals the reference. */
  lemma ScoreMeaning(b: Builtins, ref: seq<real>, x: seq<real>)
    requires Sound(b)
    ensures Score(b, ref, x).Ok? ==> Score(b, ref, x).value >= 0.0
    ensures Score(b, ref, ref) == Ok(0.0)
  {
    var r := Residuals(ref, x);
    if r.Ok? {
      SumSquaresNonNegative(r.value);
    }
    var z := Residuals(ref, ref).value;
    assert forall i :: 0 <= i < |z| ==> z[i] == 0.0;
    SumSquaresZero(z);
  }

  /** The worked case of a two-bin candidate [0, 0] against the reference [3, 4]. */
  lemma ScoreExample(b: Builtins)
    requires Sound(b)
    ensures Score(b, [3.0, 4.0], [0.0, 0.0]) == Ok(5.0)
  {
    var d := [3.0, 4.0];
    var r0 := Residuals([3.0, 4.0], [0.0, 0.0]);
    assert r0.value[0] == 3.0 && r0.value[1] == 4.0;
    assert r0.value == d;
    assert SumSquares(d[1..][1..]) == 0.0;
    assert SumSquares(d) == 25.0;
    var r := b.sqrt(25.0);
    assert r >= 0.0 && r * r == 25.0;
    if r < 5.0 {
      SquareMono(r, 5.0);
    } else if r > 5.0 {
      SquareMono(5.0, r);
    }
  }

  // ---------------------------------------------------------------- acceptance

  datatype Verdict = Verdict(msePass: bool, bolzPass: bool)

  /** An improvement is accepted outright. Otherwise the Metropolis test `exp(-(mseTmp - mse)/kt) > u`
      decides. The scores are numpy float64 values, so a zero temperature does not raise: the
      quotient is +inf (nan for a tie), exp of it is 0 (nan), and neither exceeds a draw of
      `random()`, which lies in [0, 1). At kt = 0 the search is a greedy descent. */
  function Judge(mse: real, mseTmp: real, kt: real, u: real, exp: real -> real): (v: Verdict)
    ensures v.msePass <==> mseTmp < mse
    ensures !(v.msePass && v.bolzPass)
    ensures !v.msePass && kt != 0.0 ==> (v.bolzPass <==> exp(-((mseTmp - mse) / kt)) > u)
    ensures kt == 0.0 ==> (v.msePass || v.bolzPass <==> mseTmp < mse)
  {
    if mseTmp < mse then Verdict(true, false)
    else if kt == 0.0 then Verdict(false, false)
    else Verdict(false, exp(-((mseTmp - mse) / kt)) > u)
  }

  /** A candidate that scores exactly as well as the current one passes the Boltzmann test when
      kt is non-zero (exp(0) = 1 exceeds every draw in [0, 1)) and fails it when kt is zero
      (exp(nan) compares false). */
  lemma TieAccepted(mse: real, kt: real, u: real, exp: real -> real)
    requires exp(0.0) == 1.0 && 0.0 <= u < 1.0
    ensures Judge(mse, mse, kt, u, exp) == Verdict(false, kt != 0.0)
  {
    if kt != 0.0 {
      assert -((mse - mse) / kt) == 0.0;
    }
  }

  // ---------------------------------------------------------------- one iteration

  /** The loop state: the current parameters and score (object fields in the source), the best
      score so far, the accepted count and the iteration count (locals of the loop). */
  datatype Point = Point(epsilon: real, sigma: real, mse: real, mseMin: real, nAccept: nat, mcIter: nat)

  /** What an iteration consumes from the outside: the two proposal draws, the S(q) buffer the
      evaluation leaves, and the acceptance draw (used only when the candidate is no better). */
  datatype Trial = Trial(uEpsilon: real, uSigma: real, spectrum: seq<real>, uAccept: real)

  /** What an iteration produces: the proposal, its score, the verdict and the new state. */
  datatype Move = Move(epsilonTmp: real, sigmaTmp: real, mseTmp: real, verdict: Verdict, after: Point)

  /** Everything of the run that stays fixed while the search runs. */
  datatype Setup = Setup(
    epsilonBounds: Bounds, sigmaBounds: Bounds, kt: real, msePrecission: real, maxIter: int,
    rc: real, sQref: seq<real>, nIterAverage: int, qBoxes: nat, sQlen: int, centres: seq<real>,
    ouputFile: string, gdrRecords: int, gdrInputFile: string, gdrOutputFile: string,
    outputMseFile: string, builtins: Builtins)

  /** The grid facts the evaluator guarantees. */
  predicate GridShaped(su: Setup) {
    su.sQlen == su.qBoxes - 1 && |su.centres| == su.qBoxes
  }

  /** `array[:stop]` for a Python slice bound. */
  function Prefix(s: seq<real>, stop: int): (p: seq<real>)
    ensures 0 <= stop <= |s| ==> p == s[..stop]
    ensures -|s| <= stop < 0 ==> p == s[..|s| + stop]
  {
    if 0 <= stop then s[..if stop <= |s| then stop else |s|]
    else if -|s| <= stop then s[..|s| + stop]
    else []
  }

  /** The state after a verdict: an accepted candidate replaces epsilon, sigma and mse and counts
      once; the best score so far follows the current score down. */
  function Advance(s: Point, epsilonTmp: real, sigmaTmp: real, mseTmp: real, v: Verdict): Point {
    var s1 := if v.msePass || v.bolzPass
              then s.(epsilon := epsilonTmp, sigma := sigmaTmp, mse := mseTmp, nAccept := s.nAccept + 1)
              else s;
    s1.(mcIter := s.mcIter + 1, mseMin := if s1.mse < s.mseMin then s1.mse else s.mseMin)
  }

  /** One iteration of the while loop, given what it consumes. */
  function Iterate(su: Setup, s: Point, t: Trial): (r: Result<Move>)
    ensures var n := |Prefix(t.spectrum, su.sQlen)|;
            r.Err? <==> |su.sQref| != n && |su.sQref| != 1 && n != 1
    ensures r.Err? ==> r.fault == ValueError
    ensures r.Ok? ==> r.value.after.mcIter == s.mcIter + 1
  {
    var epsilonTmp := Propose(s.epsilon, su.epsilonBounds, t.uEpsilon);
    var sigmaTmp := Propose(s.sigma, su.sigmaBounds, t.uSigma);
    match Score(su.builtins, su.sQref, Prefix(t.spectrum, su.sQlen))
    case Err(f) => Err(f)
    case Ok(mseTmp) =>
      var v := Judge(s.mse, mseTmp, su.kt, t.uAccept, su.builtins.exp);
      Ok(Move(epsilonTmp, sigmaTmp, mseTmp, v, Advance(s, epsilonTmp, sigmaTmp, mseTmp, v)))
  }

  /** An iteration either accepts, moving all three of epsilon, sigma and mse to the candidate and
      counting one acceptance, or rejects and keeps all three and the count. The iteration count
      rises by one, and the best score becomes the smaller of the old best and the new score. */
  lemma AcceptOrKeep(su: Setup, s: Point, t: Trial)
    requires Iterate(su, s, t).Ok?
    ensures var m := Iterate(su, s, t).value;
            && m.after.mcIter == s.mcIter + 1
            && (m.verdict.msePass || m.verdict.bolzPass ==>
                  && m.after.epsilon == m.epsilonTmp && m.after.sigma == m.sigmaTmp
                  && m.after.mse == m.mseTmp && m.after.nAccept == s.nAccept + 1)
            && (!(m.verdict.msePass || m.verdict.bolzPass) ==>
                  && m.after.epsilon == s.epsilon && m.after.sigma == s.sigma
                  && m.after.mse == s.mse && m.after.nAccept == s.nAccept)
            && m.after.mseMin <= s.mseMin && m.after.mseMin <= m.after.mse
            && (m.after.mseMin == s.mseMin || m.after.mseMin == m.after.mse)
  {
  }

  /** The checkpoint condition of the source. */
  predicate Checkpoint(s: Point, m: Move) {
    m.after.mse < s.mseMin
  }

  /** A checkpoint happens only on an accepted candidate that strictly improves on the best score,
      and then the best score drops to it. */
  lemma CheckpointMeaning(su: Setup, s: Point, t: Trial)
    requires Iterate(su, s, t).Ok? && s.mseMin <= s.mse
    ensures var m := Iterate(su, s, t).value;
            Checkpoint(s, m) <==>
              && (m.verdict.msePass || m.verdict.bolzPass)
              && m.mseTmp < s.mseMin && m.after.mseMin == m.mseTmp
  {
  }

  /** At zero temperature the search only ever descends: a candidate is accepted exactly when it
      improves on the current score, so the current score never rises. */
  lemma GreedyAtZero(su: Setup, s: Point, t: Trial)
    requires su.kt == 0.0 && Iterate(su, s, t).Ok?
    ensures var m := Iterate(su, s, t).value;
            && (m.verdict.msePass || m.verdict.bolzPass <==> m.mseTmp < s.mse)
            && m.after.mse <= s.mse
  {
  }

  /** The draws an iteration takes from `random()`, in order. */
  function Drawn(t: Trial, m: Move): seq<real> {
    [t.uEpsilon, t.uSigma] + if m.verdict.msePass then [] else [t.uAccept]
  }

  /** The share of accepted iterations printed on the console. */
  function AcceptanceRate(s: Point): real
    requires s.mcIter > 0
  {
    s.nAccept as real / s.mcIter as real
  }

  /** What an iteration writes after the verdict: on strict improvement of the best score the
      S(q) file (header with the step, score, parameters and cut-off) and the tail command; the
      MSE-file row when the candidate was accepted; the console line with the acceptance rate;
      and the convergence notice when the score fell below the precision. */
  function Bookkeeping(su: Setup, checkpoint: bool, rows: seq<(real, real)>, a: Point, v: Verdict): seq<Event>
    requires a.mcIter > 0
  {
    (if checkpoint
     then [WriteSq(su.ouputFile, Some(Header(a.mcIter, a.mse, a.epsilon, a.sigma, su.rc)), rows),
           Tail(su.gdrRecords, su.gdrInputFile, su.gdrOutputFile)]
     else [])
    + (if v.msePass || v.bolzPass then [MseLine(a.nAccept, a.mse, a.epsilon, a.sigma)] else [])
    + [PrintStep(a.mcIter, AcceptanceRate(a), a.mse, a.epsilon, a.sigma, v.msePass, v.bolzPass)]
    + (if a.mse < su.msePrecission then [PrintConverged] else [])
  }

  /** The events of one successful iteration: the proposal and `run 50000`, one evaluation, then
      the bookkeeping with the rows of the S(q) buffer the evaluation left. */
  function Events(su: Setup, s: Point, t: Trial, m: Move): seq<Event>
    requires GridShaped(su) && |t.spectrum| == su.qBoxes && m.after.mcIter > 0
  {
    [Cmd(PairCoeff(m.epsilonTmp, m.sigmaTmp, su.rc)), Cmd(Run(EquilibrationSteps))]
    + Evaluation(su.nIterAverage)
    + Bookkeeping(su, Checkpoint(s, m), Rows(su.centres, t.spectrum, su.sQlen), m.after, m.verdict)
  }

  /** What the run writes before the first iteration: the MSE file with its header and the
      starting row, and the console header with the starting line. */
  function Opening(su: Setup, s: Point): seq<Event> {
    [OpenMse(su.outputMseFile), MseLine(0, s.mse, s.epsilon, s.sigma), PrintHeader,
     PrintStep(0, 0.0, s.mse, s.epsilon, s.sigma, false, false)]
  }

  // ---------------------------------------------------------------- a whole walk

  /** `states[k + 1]` is what iteration k + 1 makes of `states[k]` with `trials[k]`. */
  ghost predicate Walk(su: Setup, states: seq<Point>, trials: seq<Trial>) {
    && |states| == |trials| + 1
    && forall k :: 0 <= k < |trials| ==> Link(su, states[k], trials[k], states[k + 1])
  }

  ghost predicate Link(su: Setup, s: Point, t: Trial, a: Point) {
    && |t.spectrum| == su.qBoxes
    && Iterate(su, s, t).Ok?
    && Iterate(su, s, t).value.after == a
  }

  /** The state before the first iteration. */
  function Initial(epsilon: real, sigma: real, mse: real): Point {
    Point(epsilon, sigma, mse, mse, 0, 0)
  }

  /** The events of the iterations of a walk, in order. */
  ghost function Transcript(su: Setup, states: seq<Point>, trials: seq<Trial>): seq<Event>
    requires GridShaped(su) && Walk(su, states, trials)
    decreases |trials|
  {
    if trials == [] then []
    else
      var k := |trials| - 1;
      assert Link(su, states[k], trials[k], states[k + 1]);
      Transcript(su, states[..k + 1], trials[..k])
      + Events(su, states[k], trials[k], Iterate(su, states[k], trials[k]).value)
  }

  /** The draws of the iterations of a walk, in order. */
  ghost function Draws(su: Setup, states: seq<Point>, trials: seq<Trial>): seq<real>
    requires Walk(su, states, trials)
    decreases |trials|
  {
    if trials == [] then []
    else
      var k := |trials| - 1;
      assert Link(su, states[k], trials[k], states[k + 1]);
      Draws(su, states[..k + 1], trials[..k]) + Drawn(trials[k], Iterate(su, states[k], trials[k]).value)
  }

  /** Appending one successful iteration to a walk appends its events and its draws. */
  lemma WalkExtend(su: Setup, states: seq<Point>, trials: seq<Trial>, t: Trial)
    requires GridShaped(su) && Walk(su, states, trials)
    requires |t.spectrum| == su.qBoxes && Iterate(su, states[|trials|], t).Ok?
    ensures var m := Iterate(su, states[|trials|], t).value;
            && Walk(su, states + [m.after], trials + [t])
            && Transcript(su, states + [m.after], trials + [t])
               == Transcript(su, states, trials) + Events(su, states[|trials|], t, m)
            && Draws(su, states + [m.after], trials + [t]) == Draws(su, states, trials) + Drawn(t, m)
  {
    var m := Iterate(su, states[|trials|], t).value;
    var states', trials' := states + [m.after], trials + [t];
    assert states'[..|trials| + 1] == states;
    assert trials'[..|trials|] == trials;
  }

  /** The stopping rule: at most maxIter iterations; fewer only when the last one brought the score
      below the precision; and no earlier iteration did. */
  predicate Stopped(su: Setup, states: seq<Point>, trials: seq<Trial>)
    requires |states| == |trials| + 1
  {
    && |trials| <= (if su.maxIter < 0 then 0 else su.maxIter)
    && (|trials| < su.maxIter ==> 1 <= |trials| && states[|trials|].mse < su.msePrecission)
    && forall k :: 1 <= k < |trials| ==> su.msePrecission <= states[k].mse
  }

  /** `ds` are the values of `random` from index `d0` on, in order. */
  ghost predicate DrawnFrom(random: nat -> real, d0: nat, ds: seq<real>) {
    forall j :: 0 <= j < |ds| ==> ds[j] == random(d0 + j)
  }

  /** One successful iteration from `s`: what it consumed, the state it reached, the events it
      added to the log and the draws it took. */
  ghost predicate Stepped(su: Setup, s: Point, t: Trial, a: Point, log0: seq<Event>, log1: seq<Event>,
                          random: nat -> real, d0: nat, d1: nat)
    requires GridShaped(su)
  {
    && |t.spectrum| == su.qBoxes
    && Iterate(su, s, t).Ok? && Iterate(su, s, t).value.after == a
    && log1 == log0 + Events(su, s, t, Iterate(su, s, t).value)
    && d1 == d0 + |Drawn(t, Iterate(su, s, t).value)|
    && DrawnFrom(random, d0, Drawn(t, Iterate(su, s, t).value))
  }

  /** The log and the random stream after the iterations of a walk: their events were appended
      to `log0`, and they consumed the draws from `d0` on. */
  ghost predicate Recorded(su: Setup, states: seq<Point>, trials: seq<Trial>, log0: seq<Event>, log1: seq<Event>,
                           random: nat -> real, d0: nat, d1: nat)
    requires GridShaped(su) && Walk(su, states, trials)
  {
    && log1 == log0 + Transcript(su, states, trials)
    && d1 == d0 + |Draws(su, states, trials)|
    && DrawnFrom(random, d0, Draws(su, states, trials))
  }

  /** One more successful iteration extends the walk, its events and its draws. */
  lemma RecordedStep(su: Setup, states: seq<Point>, trials: seq<Trial>, t: Trial, a: Point,
                     log0: seq<Event>, log1: seq<Event>, log2: seq<Event>, random: nat -> real, d0: nat, d1: nat, d2: nat)
    requires GridShaped(su) && Walk(su, states, trials) && Recorded(su, states, trials, log0, log1, random, d0, d1)
    requires Stepped(su, states[|trials|], t, a, log1, log2, random, d1, d2)
    ensures Walk(su, states + [a], trials + [t])
    ensures Recorded(su, states + [a], trials + [t], log0, log2, random, d0, d2)
  {
    var m := Iterate(su, states[|trials|], t).value;
    WalkExtend(su, states, trials, t);
    DrawnAppend(random, d0, Draws(su, states, trials), Drawn(t, m));
  }

  /** No state after the first has a score below the precision. */
  predicate AboveTarget(su: Setup, states: seq<Point>) {
    forall k :: 1 <= k < |states| ==> su.msePrecission <= states[k].mse
  }

  lemma AboveTargetExtend(su: Setup, states: seq<Point>, a: Point)
    requires AboveTarget(su, states) && su.msePrecission <= a.mse
    ensures AboveTarget(su, states + [a])
  {
    forall k | 1 <= k < |states| + 1
      ensures su.msePrecission <= (states + [a])[k].mse
    {
      if k < |states| {
        assert (states + [a])[k] == states[k];
      }
    }
  }

  lemma DrawnAppend(random: nat -> real, d0: nat, a: seq<real>, b: seq<real>)
    requires DrawnFrom(random, d0, a) && DrawnFrom(random, d0 + |a|, b)
    ensures DrawnFrom(random, d0, a + b)
  {
    forall j | 0 <= j < |a + b|
      ensures (a + b)[j] == random(d0 + j)
    {
      if j >= |a| {
        assert (a + b)[j] == b[j - |a|];
      }
    }
  }

  lemma WalkPrefix(su: Setup, states: seq<Point>, trials: seq<Trial>, k: nat)
    requires Walk(su, states, trials) && k <= |trials|
    ensures Walk(su, states[..k + 1], trials[..k])
  {
  }

  /** The smallest of the scores `states[0..k]`. */
  function MinScore(states: seq<Point>, k: nat): real
    requires k < |states|
  {
    if k == 0 then states[0].mse
    else if states[k].mse < MinScore(states, k - 1) then states[k].mse
    else MinScore(states, k - 1)
  }

  /** Along a walk from the start: the iteration count is the number of iterations, the accepted
      count lies between 0 and it, the best score is the minimum of all scores so far, and the
      current score is never below it. */
  lemma {:induction false} WalkAt(su: Setup, states: seq<Point>, trials: seq<Trial>, k: nat)
    requires Walk(su, states, trials) && states[0].mcIter == 0 && states[0].nAccept == 0
    requires states[0].mseMin == states[0].mse
    requires k < |states|
    ensures states[k].mcIter == k && states[k].nAccept <= k
    ensures states[k].mseMin == MinScore(states, k) && states[k].mseMin <= states[k].mse
  {
    if k > 0 {
      WalkAt(su, states, trials, k - 1);
      assert Link(su, states[k - 1], trials[k - 1], states[k]);
      AcceptOrKeep(su, states[k - 1], trials[k - 1]);
    }
  }

  /** Along a walk, the best score never rises. */
  lemma {:induction false} BestNeverRises(su: Setup, states: seq<Point>, trials: seq<Trial>, j: nat, k: nat)
    requires Walk(su, states, trials) && j <= k < |states|
    ensures states[k].mseMin <= states[j].mseMin
  {
    if j < k {
      BestNeverRises(su, states, trials, j, k - 1);
      assert Link(su, states[k - 1], trials[k - 1], states[k]);
      AcceptOrKeep(su, states[k - 1], trials[k - 1]);
    }
  }

  /** At zero temperature the current score itself never rises along a walk. */
  lemma {:induction false} DescentAtZero(su: Setup, states: seq<Point>, trials: seq<Trial>, j: nat, k: nat)
    requires su.kt == 0.0 && Walk(su, states, trials) && j <= k < |states|
    ensures states[k].mse <= states[j].mse
  {
    if j < k {
      DescentAtZero(su, states, trials, j, k - 1);
      assert Link(su, states[k - 1], trials[k - 1], states[k]);
      GreedyAtZero(su, states[k - 1], trials[k - 1]);
    }
  }

  /** The printed acceptance rate lies in [0, 1] after every iteration. */
  lemma AcceptanceRateBounded(su: Setup, states: seq<Point>, trials: seq<Trial>, k: nat)
    requires Walk(su, states, trials) && states[0].mcIter == 0 && states[0].nAccept == 0
    requires states[0].mseMin == states[0].mse
    requires 0 < k < |states|
    ensures states[k].mcIter == k && 0.0 <= states[k].nAccept as real / k as real <= 1.0
  {
    WalkAt(su, states, trials, k);
    ShareInUnit(states[k].nAccept, k);
  }

  /** A count of at most `k` out of `k > 0` is a share in [0, 1]. */
  lemma ShareInUnit(a: nat, k: nat)
    requires 0 < k && a <= k
    ensures 0.0 <= a as real / k as real <= 1.0
  {
    assert a as real <= k as real;
  }

  // ---------------------------------------------------------------- the kernel protocol of a walk

  /** The phase codes of `k` evaluations in a row. */
  function Blocks(n: int, k: nat): seq<int> {
    if k == 0 then [] else Blocks(n, k - 1) + Block(n)
  }

  /** A block in front of `k` blocks is `k + 1` blocks. */
  lemma {:induction false} BlocksCons(n: int, k: nat)
    ensures Block(n) + Blocks(n, k) == Blocks(n, k + 1)
  {
    if k > 0 {
      BlocksCons(n, k - 1);
      assert Block(n) + (Blocks(n, k - 1) + Block(n)) == (Block(n) + Blocks(n, k - 1)) + Block(n);
    }
  }

  lemma {:induction false} BlocksLength(n: int, k: nat)
    ensures |Blocks(n, k)| == k * |Block(n)|
  {
    if k > 0 {
      BlocksLength(n, k - 1);
      assert (k - 1) * |Block(n)| + |Block(n)| == k * |Block(n)|;
    }
  }

  /** Every code in a run of blocks is an accumulate code 1..n. */
  lemma {:induction false} BlocksRange(n: int, k: nat)
    ensures forall i :: 0 <= i < |Blocks(n, k)| ==> 1 <= Blocks(n, k)[i] <= n
  {
    if k > 0 {
      BlocksRange(n, k - 1);
      var b := Blocks(n, k - 1);
      forall i | 0 <= i < |b + Block(n)|
        ensures 1 <= (b + Block(n))[i] <= n
      {
        if i >= |b| {
          assert (b + Block(n))[i] == Block(n)[i - |b|];
        }
      }
    }
  }

  /** Output events never reach the kernel. */
  lemma {:induction false} OutputPhases(es: seq<Event>)
    requires forall i :: 0 <= i < |es| ==> IsOutput(es[i])
    ensures Phases(es) == []
  {
    if es != [] {
      assert IsOutput(es[0]);
      OutputPhases(es[1..]);
    }
  }

  /** One iteration calls the kernel with the phase codes of exactly one evaluation. */
  lemma EventsPhases(su: Setup, s: Point, t: Trial, m: Move)
    requires GridShaped(su) && |t.spectrum| == su.qBoxes && m.after.mcIter > 0
    ensures Phases(Events(su, s, t, m)) == Block(su.nIterAverage)
  {
    var proposal := [Cmd(PairCoeff(m.epsilonTmp, m.sigmaTmp, su.rc)), Cmd(Run(EquilibrationSteps))];
    var books := Bookkeeping(su, Checkpoint(s, m), Rows(su.centres, t.spectrum, su.sQlen), m.after, m.verdict);
    assert Events(su, s, t, m) == proposal + Evaluation(su.nIterAverage) + books;
    PhasesAppend(proposal + Evaluation(su.nIterAverage), books);
    PhasesAppend(proposal, Evaluation(su.nIterAverage));
    assert Phases(proposal) == [] by {
      assert proposal[1..] == [Cmd(Run(EquilibrationSteps))];
      assert proposal[1..][1..] == [];
    }
    EvaluationProtocol(su.nIterAverage);
    OutputPhases(books);
  }

  /** The iterations of a walk call the kernel with one block of phase codes 1..nIterAverage
      each, and with no other code. */
  lemma {:induction false} TranscriptPhases(su: Setup, states: seq<Point>, trials: seq<Trial>)
    requires GridShaped(su) && Walk(su, states, trials)
    ensures Phases(Transcript(su, states, trials)) == Blocks(su.nIterAverage, |trials|)
    decreases |trials|
  {
    if trials != [] {
      var k := |trials| - 1;
      assert Link(su, states[k], trials[k], states[k + 1]);
      var m := Iterate(su, states[k], trials[k]).value;
      WalkPrefix(su, states, trials, k);
      TranscriptPhases(su, states[..k + 1], trials[..k]);
      PhasesAppend(Transcript(su, states[..k + 1], trials[..k]), Events(su, states[k], trials[k], m));
      EventsPhases(su, states[k], trials[k], m);
    }
  }
}
