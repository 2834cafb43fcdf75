/**
 * The optimisation page (src/pages/Portfolio.tsx): the mock `simulateOptimization`, which builds
 * four results from the settings and a handful of `Math.random()` draws, and the page state that
 * switches between the dashboard and the results view.
 */
module Portfolio {
  import opened Collections
  import opened WeightMap
  import opened PortfolioTypes
  import opened Allocation

  /**
   * The draws one result consumes: `weights(i)` for asset `i` of its allocator, then one each for
   * the Sharpe ratio, return, volatility, iteration count and convergence flag. Greedy uses only
   * the three metric draws; Tangency uses no iteration or convergence draw.
   */
  datatype MethodDraws = MethodDraws(
    weights: nat -> real,
    sharpe: real,
    expectedReturn: real,
    volatility: real,
    iterations: real,
    convergence: real)

  /** The draws of one run, per result. */
  datatype Draws = Draws(greedy: MethodDraws, qaoa: MethodDraws, refine: MethodDraws, tangency: MethodDraws)

  /** Every draw is a possible value of `Math.random()`. */
  ghost predicate MethodDrawsInRange(m: MethodDraws) {
    && IsDraw(m.sharpe) && IsDraw(m.expectedReturn) && IsDraw(m.volatility)
    && IsDraw(m.iterations) && IsDraw(m.convergence)
    && forall i: nat :: IsDraw(m.weights(i))
  }

  ghost predicate DrawsInRange(d: Draws) {
    MethodDrawsInRange(d.greedy) && MethodDrawsInRange(d.qaoa) && MethodDrawsInRange(d.refine) && MethodDrawsInRange(d.tangency)
  }

  const GreedyMethod: string := "Greedy (eq-w)"
  const QaoaMethod: string := "QAOA (eq-w)"
  const RefineMethod: string := "QAOA + Refine"
  const TangencyMethod: string := "Tangency (no card)"

  /** `0.85 + (K / 10) * 0.1`, plus 0.05 with discrete weights: the level every Sharpe band is set from. */
  function BaseSharpe(c: PortfolioConfig): (b: real)
    ensures !c.useDiscreteWeights ==> b == 0.85 + c.K as real / 100.0
    ensures c.useDiscreteWeights ==> b == 0.90 + c.K as real / 100.0
  {
    0.85 + (c.K as real / 10.0) * 0.1 + (if c.useDiscreteWeights then 0.05 else 0.0)
  }

  /** `Math.floor(d * span) + first`: an iteration count from `first` up to `first + span - 1`. */
  function IterationCount(d: real, span: nat, first: int): (n: int)
    ensures (n - first) as real <= Times(d, span) < (n - first + 1) as real
  {
    Times(d, span).Floor + first
  }

  /** With a draw in `[0, 1)` the count runs from `first` up to `first + span - 1`. */
  lemma IterationCountRange(d: real, span: nat, first: int)
    requires IsDraw(d) && span > 0
    ensures first <= IterationCount(d, span, first) <= first + span - 1
  {
    DrawTimes(d, span);
  }

  /**
   * `simulateOptimization(config)` after its delay: Greedy, QAOA, QAOA + Refine and Tangency, in
   * that order. The first three pick `config.tickers.slice(0, config.K)`; Tangency takes every ticker.
   */
  function SimulateOptimization(config: PortfolioConfig, draws: Draws): (rs: seq<PortfolioResult>)
    ensures |rs| == 4
    ensures rs[0].methodName == GreedyMethod && rs[1].methodName == QaoaMethod
    ensures rs[2].methodName == RefineMethod && rs[3].methodName == TangencyMethod
    ensures rs[0].selectedAssets == rs[1].selectedAssets == rs[2].selectedAssets == Prefix(config.tickers, config.K)
    ensures rs[3].selectedAssets == config.tickers
  {
    [GreedyResult(config, draws.greedy), QaoaResult(config, draws.qaoa),
     RefineResult(config, draws.refine), TangencyResult(config, draws.tangency)]
  }

  /** The first result: equal weights over the selection, one iteration, converged. */
  function GreedyResult(config: PortfolioConfig, g: MethodDraws): (r: PortfolioResult)
    ensures r.methodName == GreedyMethod && r.selectedAssets == Prefix(config.tickers, config.K)
    ensures r.iterations == 1 && r.convergence
    ensures IsDraw(g.sharpe) ==> BaseSharpe(config) - 0.15 <= r.sharpeRatio < BaseSharpe(config) - 0.05
  {
    var selectedAssets := Prefix(config.tickers, config.K);
    PortfolioResult(GreedyMethod, selectedAssets, EqualWeights(selectedAssets),
      BaseSharpe(config) - 0.15 + g.sharpe * 0.1, 0.08 + g.expectedReturn * 0.04, 0.18 + g.volatility * 0.03,
      1, true)
  }

  /** The second result: `generateWeights` over the selection. */
  function QaoaResult(config: PortfolioConfig, q: MethodDraws): (r: PortfolioResult)
    ensures r.methodName == QaoaMethod && r.selectedAssets == Prefix(config.tickers, config.K)
    ensures r.convergence <==> q.convergence > 0.2
    ensures IsDraw(q.sharpe) ==> BaseSharpe(config) + 0.10 <= r.sharpeRatio < BaseSharpe(config) + 0.25
  {
    var selectedAssets := Prefix(config.tickers, config.K);
    PortfolioResult(QaoaMethod, selectedAssets, ClampedWeights(selectedAssets, config.useDiscreteWeights, WeightsBand, q.weights),
      BaseSharpe(config) + 0.10 + q.sharpe * 0.15, 0.10 + q.expectedReturn * 0.05, 0.16 + q.volatility * 0.03,
      IterationCount(q.iterations, 15, 8), q.convergence > 0.2)
  }

  /** The third result: `generateOptimalWeights` over the selection. */
  function RefineResult(config: PortfolioConfig, r: MethodDraws): (res: PortfolioResult)
    ensures res.methodName == RefineMethod && res.selectedAssets == Prefix(config.tickers, config.K)
    ensures res.convergence <==> r.convergence > 0.1
    ensures IsDraw(r.sharpe) ==> BaseSharpe(config) + 0.50 <= res.sharpeRatio < BaseSharpe(config) + 0.70
  {
    var selectedAssets := Prefix(config.tickers, config.K);
    PortfolioResult(RefineMethod, selectedAssets, ClampedWeights(selectedAssets, config.useDiscreteWeights, OptimalBand, r.weights),
      BaseSharpe(config) + 0.50 + r.sharpe * 0.20, 0.13 + r.expectedReturn * 0.06, 0.14 + r.volatility * 0.02,
      IterationCount(r.iterations, 20, 12), r.convergence > 0.1)
  }

  /** The fourth result: `generateTangencyWeights` over every ticker, one iteration, converged. */
  function TangencyResult(config: PortfolioConfig, t: MethodDraws): (r: PortfolioResult)
    ensures r.methodName == TangencyMethod && r.selectedAssets == config.tickers
    ensures r.iterations == 1 && r.convergence
    ensures IsDraw(t.sharpe) ==> BaseSharpe(config) + 0.85 <= r.sharpeRatio < BaseSharpe(config) + 1.10
  {
    PortfolioResult(TangencyMethod, config.tickers, TangencyWeights(config.tickers, t.weights),
      BaseSharpe(config) + 0.85 + t.sharpe * 0.25, 0.15 + t.expectedReturn * 0.07, 0.12 + t.volatility * 0.02,
      1, true)
  }

  /**
   * With draws in `[0, 1)` the four Sharpe ratios fall in disjoint bands around the base level,
   * `[b-0.15, b-0.05)`, `[b+0.10, b+0.25)`, `[b+0.50, b+0.70)` and `[b+0.85, b+1.10)`, so they are
   * strictly increasing in result order, whatever K and the weight mode are.
   */
  lemma SharpeBands(config: PortfolioConfig, draws: Draws)
    requires DrawsInRange(draws)
    ensures var rs, b := SimulateOptimization(config, draws), BaseSharpe(config);
      && b - 0.15 <= rs[0].sharpeRatio < b - 0.05
      && b + 0.10 <= rs[1].sharpeRatio < b + 0.25
      && b + 0.50 <= rs[2].sharpeRatio < b + 0.70
      && b + 0.85 <= rs[3].sharpeRatio < b + 1.10
      && rs[0].sharpeRatio < rs[1].sharpeRatio < rs[2].sharpeRatio < rs[3].sharpeRatio
  {
  }

  /**
   * Greedy and Tangency report one iteration and convergence; QAOA takes 8 to 22 iterations and
   * converges when its draw exceeds 0.2, QAOA + Refine 12 to 31 and 0.1.
   */
  lemma IterationsAndConvergence(config: PortfolioConfig, draws: Draws)
    requires DrawsInRange(draws)
    ensures var rs := SimulateOptimization(config, draws);
      && rs[0].iterations == 1 && rs[0].convergence
      && 8 <= rs[1].iterations <= 22 && (rs[1].convergence <==> draws.qaoa.convergence > 0.2)
      && 12 <= rs[2].iterations <= 31 && (rs[2].convergence <==> draws.refine.convergence > 0.1)
      && rs[3].iterations == 1 && rs[3].convergence
  {
    IterationCountRange(draws.qaoa.iterations, 15, 8);
    IterationCountRange(draws.refine.iterations, 20, 12);
  }

  /** Expected returns and volatilities lie in the ranges their draws are scaled to. */
  lemma ReturnAndVolatilityBands(config: PortfolioConfig, draws: Draws)
    requires DrawsInRange(draws)
    ensures var rs := SimulateOptimization(config, draws);
      && 0.08 <= rs[0].expectedReturn < 0.12 && 0.18 <= rs[0].volatility < 0.21
      && 0.10 <= rs[1].expectedReturn < 0.15 && 0.16 <= rs[1].volatility < 0.19
      && 0.13 <= rs[2].expectedReturn < 0.19 && 0.14 <= rs[2].volatility < 0.16
      && 0.15 <= rs[3].expectedReturn < 0.22 && 0.12 <= rs[3].volatility < 0.14
  {
  }

  /** The page's two views. */
  datatype View = DashboardView | ResultsView

  /** The page component's state. */
  class PortfolioPage {
    var currentView: View
    var isOptimizing: bool
    var results: seq<PortfolioResult>
    /** The settings and the draws of the last run that completed. */
    ghost var lastConfig: PortfolioConfig
    ghost var lastDraws: Draws

    /**
     * The results view is shown only once a run has completed, and the results held are the
     * four that the last completed run built from its settings and its draws.
     */
    ghost predicate Valid()
      reads this
    {
      && (currentView == ResultsView ==> results != [])
      && (results != [] ==> results == SimulateOptimization(lastConfig, lastDraws))
    }

    constructor ()
      ensures currentView == DashboardView && !isOptimizing && results == []
      ensures Valid()
    {
      currentView := DashboardView;
      isOptimizing := false;
      results := [];
      lastConfig := PortfolioConfig([], "", "", 0.0, 0, false, 0, 0.0, false, 0.0, [], 0);
      var none := MethodDraws(_ => 0.0, 0.0, 0.0, 0.0, 0.0, 0.0);
      lastDraws := Draws(none, none, none, none);
    }

    /**
     * `handleOptimize(config)` as one step: the flag is raised for the run and lowered after it
     * whatever happens; a run that completes shows its results, and one that throws (`fails`)
     * leaves the view and the results as they were.
     */
    method HandleOptimize(config: PortfolioConfig, draws: Draws, fails: bool)
      modifies this
      ensures !isOptimizing
      ensures if fails then
          results == old(results) && currentView == old(currentView)
          && lastConfig == old(lastConfig) && lastDraws == old(lastDraws)
        else
          results == SimulateOptimization(config, draws) && currentView == ResultsView
          && lastConfig == config && lastDraws == draws
      ensures old(Valid()) ==> Valid()
    {
      isOptimizing := true;
      if !fails {
        var optimizationResults := SimulateOptimization(config, draws);
        results := optimizationResults;
        currentView := ResultsView;
        lastConfig := config;
        lastDraws := draws;
      }
      isOptimizing := false;
    }

    /** `handleBack`: back to the dashboard; the last results are kept. */
    method HandleBack()
      modifies this`currentView
      ensures currentView == DashboardView
      ensures old(Valid()) ==> Valid()
    {
      currentView := DashboardView;
    }
  }
}
