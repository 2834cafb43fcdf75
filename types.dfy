/**
 * The two records passed between the dashboard, the page and the results view. Both source
 * files that use them declare the same shapes; they are declared once here.
 */
module PortfolioTypes {
  import opened WeightMap

  /** The optimiser's settings as the dashboard edits them. Numbers the UI only steps in whole units are `int`. */
  datatype PortfolioConfig = PortfolioConfig(
    tickers: seq<string>,
    period: string,
    interval: string,
    riskFree: real,
    K: int,
    useDiscreteWeights: bool,
    bitsPerAsset: int,
    maxWeight: real,
    shrinkLedoitWolf: bool,
    transactionCost: real,
    pList: seq<int>,
    shots: int)

  /** One optimisation method's outcome. */
  datatype PortfolioResult = PortfolioResult(
    methodName: string,  // `method` in the source; a keyword here
    selectedAssets: seq<string>,
    weights: Dict,
    sharpeRatio: real,
    expectedReturn: real,
    volatility: real,
    iterations: int,
    convergence: bool)
}
