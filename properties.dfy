/**
 * What the three parts promise together: the dashboard's ticker list has no repeats, so the
 * page's weight dictionaries hold one entry per selected asset and sum to 1; and the page's
 * Sharpe bands mean the results view always headlines the Tangency result.
 */
module Properties {
  import opened Collections
  import opened WeightMap
  import opened PortfolioTypes
  import opened Allocation
  import opened Dashboard
  import opened Portfolio
  import opened Results

  /** Whatever the settings, with draws in `[0, 1)` the results view headlines the fourth result, Tangency. */
  lemma TangencyIsAlwaysBest(config: PortfolioConfig, draws: Draws)
    requires DrawsInRange(draws)
    ensures var rs := SimulateOptimization(config, draws);
      && BestIndex(rs) == 3
      && BestResult(rs).methodName == TangencyMethod
      && BestResult(rs).selectedAssets == config.tickers
  {
    SharpeBands(config, draws);
    LastOfIncreasingIsBest(SimulateOptimization(config, draws));
  }

  /** Of four results with strictly increasing Sharpe ratios, the reduce picks the last. */
  lemma LastOfIncreasingIsBest(rs: seq<PortfolioResult>)
    requires |rs| == 4 && rs[0].sharpeRatio < rs[1].sharpeRatio < rs[2].sharpeRatio < rs[3].sharpeRatio
    ensures BestIndex(rs) == 3
  {
    FirstMaximumIsBest(rs, 3);
  }

  /**
   * With K not negative, the headline card of a run is green with an up arrow and reads
   * "Converged": the Tangency Sharpe ratio is at least 1.7 and Tangency always converges.
   */
  lemma HeadlineLooksGood(config: PortfolioConfig, draws: Draws)
    requires DrawsInRange(draws) && config.K >= 0
    ensures var best := BestResult(SimulateOptimization(config, draws));
      && best.sharpeRatio >= 1.7
      && PerformanceColor(best.sharpeRatio) == Success
      && PerformanceIcon(best.sharpeRatio) == TrendingUp
      && ConvergenceBadge(best.convergence) == "Converged"
      && ConvergenceStatus(best.convergence) == "Converged"
  {
    TangencyIsAlwaysBest(config, draws);
    SharpeBands(config, draws);
    IterationsAndConvergence(config, draws);
  }

  /**
   * A run started from the dashboard (the button enabled, its ticker list without repeats, K at
   * least 1) selects the first K tickers, none twice, and Greedy holds one weight of 1/K per
   * selected ticker, in ticker order, summing to 1.
   */
  lemma DashboardRunSelection(config: PortfolioConfig, draws: Draws)
    requires Distinct(config.tickers)
    requires OptimizeEnabled(config, false) && config.K >= 1
    ensures var rs := SimulateOptimization(config, draws);
      var selected := rs[0].selectedAssets;
      && |selected| == config.K && selected == config.tickers[..config.K] && Distinct(selected)
      && Pairs(rs[0].weights, selected, Repeat(1.0 / config.K as real, config.K))
      && Sum(Values(rs[0].weights)) == 1.0
  {
    var rs := SimulateOptimization(config, draws);
    var selected := Prefix(config.tickers, config.K);
    assert rs[0].weights == EqualWeights(selected);
    PrefixKeepsDistinct(config.tickers, config.K);
    EqualWeightsOfDistinct(selected);
  }

  /**
   * In such a run QAOA and QAOA + Refine hold one weight per selected ticker, in ticker order:
   * the raw clamped weights of their bands, which sum to 1 without normalising.
   */
  lemma DashboardRunWeights(config: PortfolioConfig, draws: Draws)
    requires Distinct(config.tickers)
    requires OptimizeEnabled(config, false) && config.K >= 1
    ensures var rs := SimulateOptimization(config, draws);
      var selected := config.tickers[..config.K];
      var discrete := config.useDiscreteWeights;
      && Pairs(rs[1].weights, selected, RawWeights(config.K, WeightsBand, discrete, draws.qaoa.weights))
      && Pairs(rs[2].weights, selected, RawWeights(config.K, OptimalBand, discrete, draws.refine.weights))
      && Sum(Values(rs[1].weights)) == 1.0 && Sum(Values(rs[2].weights)) == 1.0
  {
    var rs := SimulateOptimization(config, draws);
    var selected := Prefix(config.tickers, config.K);
    var discrete := config.useDiscreteWeights;
    assert selected == config.tickers[..config.K];
    assert rs[1].weights == ClampedWeights(selected, discrete, WeightsBand, draws.qaoa.weights);
    assert rs[2].weights == ClampedWeights(selected, discrete, OptimalBand, draws.refine.weights);
    PrefixKeepsDistinct(config.tickers, config.K);
    ClampedWeightsOfDistinct(selected, discrete, WeightsBand, draws.qaoa.weights);
    ClampedWeightsOfDistinct(selected, discrete, OptimalBand, draws.refine.weights);
  }

  /** With at most 20 selected tickers, no QAOA or QAOA + Refine weight of such a run is under 5%. */
  lemma DashboardRunWeightFloor(config: PortfolioConfig, draws: Draws)
    requires Distinct(config.tickers)
    requires OptimizeEnabled(config, false) && 1 <= config.K <= 20
    ensures var rs := SimulateOptimization(config, draws);
      && (forall w :: w in Values(rs[1].weights) ==> w >= MinWeight)
      && (forall w :: w in Values(rs[2].weights) ==> w >= MinWeight)
  {
    var selected := Prefix(config.tickers, config.K);
    PrefixKeepsDistinct(config.tickers, config.K);
    ClampedWeightsFloor(selected, config.useDiscreteWeights, WeightsBand, draws.qaoa.weights);
    ClampedWeightsFloor(selected, config.useDiscreteWeights, OptimalBand, draws.refine.weights);
  }

  /**
   * The headline allocation of a run from a ticker list without repeats holds every ticker once,
   * in list order, at its share of the Tangency draws; when some draw is positive the pie's
   * percentages add up to 100.
   */
  lemma HeadlineAllocation(config: PortfolioConfig, draws: Draws)
    requires Distinct(config.tickers) && DrawsInRange(draws)
    ensures var best := BestResult(SimulateOptimization(config, draws));
      var rs := DrawSeq(draws.tangency.weights, |config.tickers|);
      && Pairs(best.weights, config.tickers, Shares(rs))
      && (Sum(rs) > 0.0 ==> Sum(Percentages(AllocationData(best.weights))) == 100.0)
  {
    var best := BestResult(SimulateOptimization(config, draws));
    TangencyIsAlwaysBest(config, draws);
    TangencyWeightsOfDistinct(config.tickers, draws.tangency.weights);
    AllocationPercentagesTotal(best.weights);
  }

  /** Every bar of the Sharpe comparison chart of a run gets one of the four bar colours. */
  lemma BarColorsDefinedForRuns(config: PortfolioConfig, draws: Draws)
    ensures forall row :: row in PerformanceData(SimulateOptimization(config, draws)) ==> BarColor(row.index).Some?
  {
    var rows := PerformanceData(SimulateOptimization(config, draws));
    forall row | row in rows ensures BarColor(row.index).Some? {
      var i :| 0 <= i < |rows| && rows[i] == row;
    }
  }

  /** A fifth result would get no bar colour. */
  lemma FifthBarHasNoColor(results: seq<PortfolioResult>)
    requires |results| >= 5
    ensures BarColor(PerformanceData(results)[4].index) == None
  {
  }

  /**
   * Whatever the page shows in its results view is headed by the Tangency result of the last
   * completed run (whose draws are values of `Math.random()`), over that run's full ticker list;
   * with K not negative it reads green, up and converged.
   */
  lemma ResultsViewHeadline(page: PortfolioPage)
    requires page.Valid() && page.currentView == ResultsView && DrawsInRange(page.lastDraws)
    ensures |page.results| == 4
    ensures var best := BestResult(page.results);
      && best.methodName == TangencyMethod
      && best.selectedAssets == page.lastConfig.tickers
      && (page.lastConfig.K >= 0 ==>
        PerformanceColor(best.sharpeRatio) == Success && ConvergenceBadge(best.convergence) == "Converged")
  {
    TangencyIsAlwaysBest(page.lastConfig, page.lastDraws);
    if page.lastConfig.K >= 0 {
      HeadlineLooksGood(page.lastConfig, page.lastDraws);
    }
  }

  /**
   * Once a run from the dashboard has completed, the page shows its Tangency result as the best.
   * Back then shows a newly mounted panel, and a run that fails leaves the page on it.
   */
  method OptimizeSession(draws: Draws)
    requires DrawsInRange(draws)
  {
    var dashboard := new PortfolioDashboard();
    var page := new PortfolioPage();
    assert OptimizeEnabled(dashboard.config, page.isOptimizing);
    page.HandleOptimize(dashboard.config, draws, false);
    ResultsViewHeadline(page);
    assert BestResult(page.results).selectedAssets == DefaultConfig().tickers;
    page.HandleBack();
    assert page.currentView == DashboardView && page.Valid();
    // The results view replaced the panel, so Back mounts a fresh one with the default settings.
    dashboard := new PortfolioDashboard();
    assert dashboard.config == DefaultConfig();
    page.HandleOptimize(dashboard.config, draws, true);
    assert page.currentView == DashboardView && |page.results| == 4;
  }
}
