/**
  Twiddle: derivative-free coordinate descent over a parameter dictionary.
  The search is specified by pure functions (one trial on one key, one sweep
  over all keys, the outer loop) and the imperative `Twiddle` method is proved
  to compute exactly what they describe.
*/
module AutoTune {
  import opened Reals
  import opened Parameters

  /** `is_best`: a cost this close to zero ends the search. */
  const BestPrecision: real := 0.0001

  /** `is_better`: costs are compared by absolute value. */
  predicate IsBetter(value1: real, value2: real)
  {
    Abs(value1) < Abs(value2)
  }

  predicate IsBest(value: real)
  {
    Abs(value) < BestPrecision
  }

  /** `is_better` is a strict order: never both ways, and transitive. */
  lemma IsBetterStrictOrder(a: real, b: real, c: real)
    ensures !(IsBetter(a, b) && IsBetter(b, a))
    ensures IsBetter(a, b) && IsBetter(b, c) ==> IsBetter(a, c)
  {
  }

  /** The keyword arguments of one twiddle call. */
  datatype Settings = Settings(threshold: real, change: real, maxIterations: nat,
                               goodInc: real, badInc: real, midInc: real, decInc: real)

  /** State of the search: the parameters `p` (the very dict that is returned as best_p), the step sizes `dp`, the best cost, and how many times the cost was evaluated. */
  datatype Search = Search(p: Params, dp: seq<real>, best: real, evals: nat)

  predicate Aligned(s: Search)
  {
    |s.dp| == |s.p|
  }

  /** Every product in the search goes through this one function, so that the states it builds compare term by term. */
  function Times(a: real, b: real): real
  {
    a * b
  }

  /** `p[k] += dp[k]` */
  function Raised(s: Search, k: nat): Params
    requires Aligned(s) && k < |s.p|
  {
    SetValue(s.p, k, s.p[k].value + s.dp[k])
  }

  /** `p[k] -= bad_inc * dp[k]` after the raise */
  function Lowered(c: Settings, s: Search, k: nat): Params
    requires Aligned(s) && k < |s.p|
  {
    var up := Raised(s, k);
    SetValue(up, k, up[k].value - Times(c.badInc, s.dp[k]))
  }

  /** Raising by d, lowering by b·d and raising by d again nets 2·d - b·d. */
  lemma LowerThenRaise(p: Params, k: nat, d: real, b: real)
    requires k < |p|
    ensures var up := SetValue(p, k, p[k].value + d);
            var down := SetValue(up, k, up[k].value - Times(b, d));
            SetValue(down, k, down[k].value + d) == SetValue(p, k, p[k].value + 2.0 * d - Times(b, d))
  {
  }

  /** `dp[k] *= factor` */
  function Scaled(dp: seq<real>, k: nat, factor: real): seq<real>
    requires k < |dp|
  {
    dp[k := Times(dp[k], factor)]
  }

  /** One pass of the inner loop body for the `k`-th key. */
  function Trial(cost: Params -> real, c: Settings, s: Search, k: nat): (r: Search)
    requires Aligned(s) && k < |s.p|
    ensures |r.p| == |s.p| && Aligned(r)
  {
    var up := Raised(s, k);
    var err := cost(up);
    if IsBetter(err, s.best) then
      Search(up, Scaled(s.dp, k, c.goodInc), err, s.evals + 1)
    else
      var down := Lowered(c, s, k);
      var err2 := cost(down);
      if IsBetter(err2, s.best) then
        Search(down, Scaled(s.dp, k, c.midInc), err2, s.evals + 2)
      else
        Search(SetValue(down, k, down[k].value + s.dp[k]), Scaled(s.dp, k, c.decInc), s.best, s.evals + 2)
  }

  /** A trial never worsens the best cost and evaluates the cost once or twice. */
  lemma TrialOutcome(cost: Params -> real, c: Settings, s: Search, k: nat)
    requires Aligned(s) && k < |s.p|
    ensures Abs(Trial(cost, c, s, k).best) <= Abs(s.best)
    ensures s.evals + 1 <= Trial(cost, c, s, k).evals <= s.evals + 2
  {
  }

  /** A raise that improves the best cost is kept and its step grows by good_inc. */
  lemma TrialRaises(cost: Params -> real, c: Settings, s: Search, k: nat)
    requires Aligned(s) && k < |s.p|
    requires IsBetter(cost(Raised(s, k)), s.best)
    ensures Trial(cost, c, s, k) == Search(Raised(s, k), Scaled(s.dp, k, c.goodInc), cost(Raised(s, k)), s.evals + 1)
  {
  }

  /** Otherwise a lowering that improves is kept and the step grows by mid_inc. */
  lemma TrialLowers(cost: Params -> real, c: Settings, s: Search, k: nat)
    requires Aligned(s) && k < |s.p|
    requires !IsBetter(cost(Raised(s, k)), s.best) && IsBetter(cost(Lowered(c, s, k)), s.best)
    ensures Trial(cost, c, s, k) == Search(Lowered(c, s, k), Scaled(s.dp, k, c.midInc), cost(Lowered(c, s, k)), s.evals + 2)
  {
  }

  /**
    When neither direction improves, the best cost stays, the step shrinks by
    dec_inc, and the key ends at its old value plus 2·dp[k] - bad_inc·dp[k]:
    back where it was only when bad_inc is 2.
  */
  lemma TrialRetreats(cost: Params -> real, c: Settings, s: Search, k: nat)
    requires Aligned(s) && k < |s.p|
    requires !IsBetter(cost(Raised(s, k)), s.best) && !IsBetter(cost(Lowered(c, s, k)), s.best)
    ensures Trial(cost, c, s, k) == Search(SetValue(s.p, k, s.p[k].value + 2.0 * s.dp[k] - Times(c.badInc, s.dp[k])),
                                           Scaled(s.dp, k, c.decInc), s.best, s.evals + 2)
  {
    var down := Lowered(c, s, k);
    LowerThenRaise(s.p, k, s.dp[k], c.badInc);
    assert Trial(cost, c, s, k).p == SetValue(down, k, down[k].value + s.dp[k]);
  }

  /** A trial changes the value and step of key `k` only. */
  lemma TrialFrame(cost: Params -> real, c: Settings, s: Search, k: nat)
    requires Aligned(s) && k < |s.p|
    ensures forall i :: 0 <= i < |s.p| && i != k ==>
              Trial(cost, c, s, k).p[i] == s.p[i] && Trial(cost, c, s, k).dp[i] == s.dp[i]
  {
    if IsBetter(cost(Raised(s, k)), s.best) {
      TrialRaises(cost, c, s, k);
    } else if IsBetter(cost(Lowered(c, s, k)), s.best) {
      TrialLowers(cost, c, s, k);
    } else {
      TrialRetreats(cost, c, s, k);
    }
  }

  /** With the default bad_inc = 2 a trial that fails both ways puts the key back exactly where it was. */
  lemma TrialKeepsBestCostAtDefault(cost: Params -> real, c: Settings, s: Search, k: nat)
    requires Aligned(s) && k < |s.p| && c.badInc == 2.0
    requires cost(s.p) == s.best
    ensures cost(Trial(cost, c, s, k).p) == Trial(cost, c, s, k).best
  {
    if !IsBetter(cost(Raised(s, k)), s.best) && !IsBetter(cost(Lowered(c, s, k)), s.best) {
      TrialRetreats(cost, c, s, k);
      assert SetValue(s.p, k, s.p[k].value + 2.0 * s.dp[k] - Times(c.badInc, s.dp[k])) == s.p;
    }
  }

  /** Trials on keys 0 .. n-1, in dictionary order: one pass of the inner `for`. */
  function Sweep(cost: Params -> real, c: Settings, s: Search, n: nat): (r: Search)
    requires Aligned(s) && n <= |s.p|
    ensures |r.p| == |s.p| && Aligned(r)
    decreases n
  {
    if n == 0 then s else Trial(cost, c, Sweep(cost, c, s, n - 1), n - 1)
  }

  /** A sweep over `n` keys never worsens the best cost and evaluates the cost once or twice per key. */
  lemma {:induction false} SweepOutcome(cost: Params -> real, c: Settings, s: Search, n: nat)
    requires Aligned(s) && n <= |s.p|
    ensures Abs(Sweep(cost, c, s, n).best) <= Abs(s.best)
    ensures s.evals + n <= Sweep(cost, c, s, n).evals <= s.evals + 2 * n
  {
    if n > 0 {
      SweepOutcome(cost, c, s, n - 1);
      TrialOutcome(cost, c, Sweep(cost, c, s, n - 1), n - 1);
    }
  }

  /** The stopping test at the top of each outer iteration. */
  predicate Stopped(c: Settings, s: Search)
  {
    SumOf(s.dp) <= c.threshold || IsBest(s.best)
  }

  /** The outer loop from iteration `j` on; the second component is the value of `j` when twiddle returns. */
  function Run(cost: Params -> real, c: Settings, s: Search, j: nat): (r: (Search, nat))
    requires Aligned(s)
    ensures |r.0.p| == |s.p| && Aligned(r.0)
    decreases c.maxIterations - j
  {
    if j >= c.maxIterations then
      (s, if c.maxIterations == 0 then 0 else c.maxIterations - 1)
    else if Stopped(c, s) then
      (s, j)
    else
      Run(cost, c, Sweep(cost, c, s, |s.p|), j + 1)
  }

  /** At most two cost evaluations per key, for each outer iteration. */
  function EvalBudget(keys: nat, iterations: nat): nat
  {
    if iterations == 0 then 0 else EvalBudget(keys, iterations - 1) + 2 * keys
  }

  /** The budget is 2·|p|·max_iterations. */
  lemma {:induction false} EvalBudgetIsProduct(keys: nat, iterations: nat)
    ensures EvalBudget(keys, iterations) == 2 * keys * iterations
  {
    if iterations > 0 {
      EvalBudgetIsProduct(keys, iterations - 1);
      assert 2 * keys * iterations == 2 * keys * (iterations - 1) + 2 * keys;
    }
  }

  /**
    What the outer loop from iteration `j` guarantees: the best cost is never
    worse, the returned `j` is 0 or an iteration index, and a return before
    the last iteration means one of the two stopping tests held.
  */
  lemma {:induction false} RunOutcome(cost: Params -> real, c: Settings, s: Search, j: nat)
    requires Aligned(s)
    ensures Abs(Run(cost, c, s, j).0.best) <= Abs(s.best)
    ensures Run(cost, c, s, j).1 == 0 || Run(cost, c, s, j).1 < c.maxIterations
    ensures Run(cost, c, s, j).1 + 1 < c.maxIterations ==> Stopped(c, Run(cost, c, s, j).0)
    decreases c.maxIterations - j
  {
    if j < c.maxIterations && !Stopped(c, s) {
      var next := Sweep(cost, c, s, |s.p|);
      SweepOutcome(cost, c, s, |s.p|);
      RunOutcome(cost, c, next, j + 1);
      assert Run(cost, c, s, j) == Run(cost, c, next, j + 1);
    } else {
      assert Run(cost, c, s, j).0 == s;
    }
  }

  /** The iterations left from `j` evaluate the cost at most twice per key each. */
  lemma {:induction false} RunEvals(cost: Params -> real, c: Settings, s: Search, j: nat)
    requires Aligned(s) && j <= c.maxIterations
    ensures s.evals <= Run(cost, c, s, j).0.evals <= s.evals + EvalBudget(|s.p|, c.maxIterations - j)
    decreases c.maxIterations - j
  {
    if j < c.maxIterations && !Stopped(c, s) {
      var next := Sweep(cost, c, s, |s.p|);
      SweepOutcome(cost, c, s, |s.p|);
      RunEvals(cost, c, next, j + 1);
      assert Run(cost, c, s, j) == Run(cost, c, next, j + 1);
    } else {
      assert Run(cost, c, s, j).0 == s;
    }
  }

  /** The search twiddle starts from: every key with step `change`, the cost evaluated once. */
  function InitialSearch(cost: Params -> real, p: Params, change: real): (s: Search)
    ensures Aligned(s) && s.p == p && s.evals == 1 && s.best == cost(p)
    ensures forall i :: 0 <= i < |p| ==> s.dp[i] == change
  {
    Search(p, seq(|p|, _ => change), cost(p), 1)
  }

  /**
    What twiddle returns for a cost function and initial parameters: as many
    entries as the input, the best cost is never worse
    than the initial one, the cost is evaluated at most 1 + 2·|p|·max_iterations
    times, the returned `j` is 0 or a valid iteration index, and an early
    return means one of the two stopping tests held.
  */
  function TwiddleResult(cost: Params -> real, p: Params, c: Settings): (r: (Search, nat))
    ensures |r.0.p| == |p|
    ensures Abs(r.0.best) <= Abs(cost(p))
    ensures 1 <= r.0.evals <= 1 + EvalBudget(|p|, c.maxIterations)
    ensures r.1 == 0 || r.1 < c.maxIterations
    ensures r.1 + 1 < c.maxIterations ==> Stopped(c, r.0)
  {
    var s0 := InitialSearch(cost, p, c.change);
    RunOutcome(cost, c, s0, 0);
    RunEvals(cost, c, s0, 0);
    Run(cost, c, s0, 0)
  }

  lemma {:induction false} SweepKeepsBestCost(cost: Params -> real, c: Settings, s: Search, n: nat)
    requires Aligned(s) && n <= |s.p| && c.badInc == 2.0
    requires cost(s.p) == s.best
    ensures cost(Sweep(cost, c, s, n).p) == Sweep(cost, c, s, n).best
  {
    if n > 0 {
      var prev := Sweep(cost, c, s, n - 1);
      SweepKeepsBestCost(cost, c, s, n - 1);
      TrialKeepsBestCostAtDefault(cost, c, prev, n - 1);
      assert Sweep(cost, c, s, n) == Trial(cost, c, prev, n - 1);
    }
  }

  lemma {:induction false} RunKeepsBestCost(cost: Params -> real, c: Settings, s: Search, j: nat)
    requires Aligned(s) && c.badInc == 2.0
    requires cost(s.p) == s.best
    ensures cost(Run(cost, c, s, j).0.p) == Run(cost, c, s, j).0.best
    decreases c.maxIterations - j
  {
    if j < c.maxIterations && !Stopped(c, s) {
      var next := Sweep(cost, c, s, |s.p|);
      SweepKeepsBestCost(cost, c, s, |s.p|);
      RunKeepsBestCost(cost, c, next, j + 1);
      assert Run(cost, c, s, j) == Run(cost, c, next, j + 1);
    } else {
      assert Run(cost, c, s, j).0 == s;
    }
  }

  /**
    best_p is the dict p itself, so twiddle returns the parameters as the
    last trial left them. With the default bad_inc = 2 these are always
    parameters whose cost is the returned best cost.
  */
  lemma TwiddleReturnsBestAtDefault(cost: Params -> real, p: Params, c: Settings)
    requires c.badInc == 2.0
    ensures cost(TwiddleResult(cost, p, c).0.p) == TwiddleResult(cost, p, c).0.best
  {
    RunKeepsBestCost(cost, c, InitialSearch(cost, p, c.change), 0);
  }

  /**
    With another bad_inc the key is not restored: starting at x = 0 with step 10,
    bad_inc = 3 and cost |x - 1|, both trials fail and x ends at -10, whose cost
    11 is not the best cost 1 that is reported.
  */
  lemma TrialDriftsWhenBadIncIsNotTwo()
    ensures var cost := (q: Params) => if |q| > 0 then Abs(q[0].value - 1.0) else 0.0;
            var c := Settings(0.1, 10.0, 1000, 1.1, 3.0, 1.05, 0.95);
            var r := Trial(cost, c, Search([Entry("x", 0.0)], [10.0], 1.0, 1), 0);
            r.p[0].value == -10.0 && r.best == 1.0 && cost(r.p) == 11.0
  {
  }

  /** `dict_sum`. */
  method DictSum(aDict: seq<real>) returns (s: real)
    ensures s == SumOf(aDict)
  {
    s := 0.0;
    var i := 0;
    while i < |aDict|
      invariant 0 <= i <= |aDict|
      invariant s == SumOf(aDict[..i])
    {
      SumOfPrefix(aDict, i);
      s := s + aDict[i];
      i := i + 1;
    }
    assert aDict[..i] == aDict;
  }

  /** The initial step map: one entry per parameter key, each equal to `change`. */
  method InitialSteps(p: Params, change: real) returns (dp: seq<real>)
    ensures |dp| == |p|
    ensures forall i :: 0 <= i < |p| ==> dp[i] == change
  {
    dp := [];
    var i := 0;
    while i < |p|
      invariant 0 <= i <= |p|
      invariant |dp| == i
      invariant forall k :: 0 <= k < i ==> dp[k] == change
    {
      dp := dp + [change];
      i := i + 1;
    }
  }

  /**
    The object being tuned. `parameters` and `cost` stand for what a subclass
    supplies through `get_parameters` and `run_function_with_parameters`; the
    base class supplies the empty dict and the constant cost 0. `totalI`
    counts the calls of the latter when `countsCalls` holds, as the base
    implementation does; an override that does not call it leaves `totalI` alone.
  */
  class AutoTuneFunction {
    const midInc: real
    const badInc: real
    const change: real
    const threshold: real
    const maxIter: int
    var totalI: nat
    const parameters: Params
    const cost: Params -> real
    const countsCalls: bool

    constructor (maxIter: int := 500, changesThreshold: real := 0.01, change: real := 10.0, badInc: real := 2.0,
                 midInc: real := 1.05, parameters: Params := [], cost: Params -> real := (ps: Params) => 0.0,
                 countsCalls: bool := true)
      ensures this.parameters == parameters && this.cost == cost && this.countsCalls == countsCalls
      ensures this.maxIter == maxIter && this.threshold == changesThreshold && this.change == change
      ensures this.badInc == badInc && this.midInc == midInc
      ensures totalI == 0
    {
      this.midInc := midInc;
      this.badInc := badInc;
      this.change := change;
      this.threshold := changesThreshold;
      this.maxIter := maxIter;
      this.totalI := 0;
      this.parameters := parameters;
      this.cost := cost;
      this.countsCalls := countsCalls;
    }

    /** How much `totalI` grows over `n` calls of `run_function_with_parameters`. */
    function Tally(n: int): int
    {
      if countsCalls then n else 0
    }

    function GetParameters(): Params
    {
      parameters
    }

    /** Evaluates the cost of `ps`; the base implementation counts the call. */
    method RunFunctionWithParameters(ps: Params) returns (value: real)
      modifies this
      ensures totalI == old(totalI) + Tally(1)
      ensures value == cost(ps)
    {
      if countsCalls {
        totalI := totalI + 1;
      }
      value := cost(ps);
    }

    /**
      Twiddle with this object's threshold, change, bad_inc and mid_inc; its
      own max_iter is not passed on, so twiddle runs with its default 1000.
    */
    method AutoTuneWithTwiddle() returns (bestErr: real, bestP: Params, j: nat)
      modifies this
      ensures var r := TwiddleResult(cost, parameters, Settings(threshold, change, 1000, 1.1, badInc, midInc, 0.95));
              bestErr == r.0.best && bestP == r.0.p && j == r.1 && totalI == old(totalI) + Tally(r.0.evals)
      ensures totalI <= old(totalI) + 1 + EvalBudget(|parameters|, 1000)
    {
      bestErr, bestP, j := Twiddle(this, threshold := threshold, change := change, badInc := badInc, midInc := midInc);
    }

    method AutoTune() returns (bestP: Params)
      modifies this
      ensures var r := TwiddleResult(cost, parameters, Settings(threshold, change, 1000, 1.1, badInc, midInc, 0.95));
              bestP == r.0.p && totalI == old(totalI) + Tally(r.0.evals)
      ensures totalI <= old(totalI) + 1 + EvalBudget(|parameters|, 1000)
    {
      var bestError, steps;
      bestError, bestP, steps := AutoTuneWithTwiddle();
    }
  }

  /** The body of twiddle's inner `for` for the `k`-th key, proved to compute `Trial`. */
  method TwiddleTrial(f: AutoTuneFunction, c: Settings, p0: Params, dp0: seq<real>, best0: real, ghost evals0: nat, k: nat)
    returns (p: Params, dp: seq<real>, bestErr: real, ghost evals: nat)
    requires |dp0| == |p0| && k < |p0|
    modifies f
    ensures Search(p, dp, bestErr, evals) == Trial(f.cost, c, Search(p0, dp0, best0, evals0), k)
    ensures f.totalI == old(f.totalI) + f.Tally(evals - evals0)
  {
    ghost var before := Search(p0, dp0, best0, evals0);
    dp, bestErr := dp0, best0;
    p := SetValue(p0, k, p0[k].value + dp[k]);
    var err := f.RunFunctionWithParameters(p);
    evals := evals0 + 1;
    if IsBetter(err, bestErr) {
      TrialRaises(f.cost, c, before, k);
      bestErr := err;
      dp := Scaled(dp, k, c.goodInc);
    } else {
      p := SetValue(p, k, p[k].value - Times(c.badInc, dp[k]));
      err := f.RunFunctionWithParameters(p);
      evals := evals + 1;
      if IsBetter(err, bestErr) {
        TrialLowers(f.cost, c, before, k);
        bestErr := err;
        dp := Scaled(dp, k, c.midInc);
      } else {
        TrialRetreats(f.cost, c, before, k);
        LowerThenRaise(p0, k, dp0[k], c.badInc);
        p := SetValue(p, k, p[k].value + dp[k]);
        dp := Scaled(dp, k, c.decInc);
      }
    }
  }

  /** Twiddle's inner `for` over the keys of `p`, proved to compute `Sweep`. */
  method TwiddleSweep(f: AutoTuneFunction, c: Settings, p0: Params, dp0: seq<real>, best0: real, ghost evals0: nat)
    returns (p: Params, dp: seq<real>, bestErr: real, ghost evals: nat)
    requires |dp0| == |p0|
    modifies f
    ensures Search(p, dp, bestErr, evals) == Sweep(f.cost, c, Search(p0, dp0, best0, evals0), |p0|)
    ensures f.totalI == old(f.totalI) + f.Tally(evals - evals0)
  {
    ghost var start := Search(p0, dp0, best0, evals0);
    p, dp, bestErr, evals := p0, dp0, best0, evals0;
    var k := 0;
    while k < |p0|
      invariant k <= |p0|
      invariant Search(p, dp, bestErr, evals) == Sweep(f.cost, c, start, k)
      invariant f.totalI == old(f.totalI) + f.Tally(evals - evals0)
    {
      p, dp, bestErr, evals := TwiddleTrial(f, c, p, dp, bestErr, evals, k);
      k := k + 1;
    }
  }

  /** Twiddle's outer `while` from the state `p0, dp0, best0`, proved to compute `Run` from iteration 0. */
  method TwiddleLoop(f: AutoTuneFunction, c: Settings, p0: Params, dp0: seq<real>, best0: real, ghost evals0: nat)
    returns (p: Params, dp: seq<real>, bestErr: real, j: nat, ghost evals: nat)
    requires |dp0| == |p0|
    modifies f
    ensures (Search(p, dp, bestErr, evals), j) == Run(f.cost, c, Search(p0, dp0, best0, evals0), 0)
    ensures f.totalI == old(f.totalI) + f.Tally(evals - evals0)
  {
    ghost var goal := Run(f.cost, c, Search(p0, dp0, best0, evals0), 0);
    p, dp, bestErr, evals := p0, dp0, best0, evals0;
    j := 0;
    var iteration: nat := 0;
    while iteration < c.maxIterations
      invariant iteration <= c.maxIterations
      invariant |dp| == |p|
      invariant f.totalI == old(f.totalI) + f.Tally(evals - evals0)
      invariant Run(f.cost, c, Search(p, dp, bestErr, evals), iteration) == goal
      invariant j == if iteration == 0 then 0 else iteration - 1
      decreases c.maxIterations - iteration
    {
      j := iteration;
      var sdp := DictSum(dp);
      if sdp <= c.threshold {
        break;
      } else if IsBest(bestErr) {
        break;
      }
      ghost var s := Search(p, dp, bestErr, evals);
      p, dp, bestErr, evals := TwiddleSweep(f, c, p, dp, bestErr, evals);
      assert Run(f.cost, c, s, iteration) == Run(f.cost, c, Search(p, dp, bestErr, evals), iteration + 1);
      iteration := iteration + 1;
    }
    assert Run(f.cost, c, Search(p, dp, bestErr, evals), iteration) == (Search(p, dp, bestErr, evals), j);
  }

  /** `twiddle`, proved to compute `TwiddleResult` and to evaluate the cost exactly that many times. */
  method Twiddle(f: AutoTuneFunction, threshold: real := 0.1, change: real := 10.0, maxIterations: nat := 1000,
                 goodInc: real := 1.1, badInc: real := 2.0, midInc: real := 1.05, decInc: real := 0.95)
    returns (bestErr: real, bestP: Params, j: nat)
    modifies f
    ensures var r := TwiddleResult(f.cost, f.parameters, Settings(threshold, change, maxIterations, goodInc, badInc, midInc, decInc));
            bestErr == r.0.best && bestP == r.0.p && j == r.1 && f.totalI == old(f.totalI) + f.Tally(r.0.evals)
  {
    var c := Settings(threshold, change, maxIterations, goodInc, badInc, midInc, decInc);
    var p := f.GetParameters();
    var dp := InitialSteps(p, change);
    bestErr := f.RunFunctionWithParameters(p);
    assert Search(p, dp, bestErr, 1) == InitialSearch(f.cost, f.parameters, change);
    // best_p = p: the same dict, so what is returned is p as the loop leaves it
    ghost var evals: nat;
    p, dp, bestErr, j, evals := TwiddleLoop(f, c, p, dp, bestErr, 1);
    bestP := p;
  }
}
