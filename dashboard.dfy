/**
 * The configuration panel (src/components/PortfolioDashboard.tsx): the optimiser's settings, the
 * text box for a new ticker, the handlers that edit them, and the guard on the optimise button.
 */
module Dashboard {
  import opened Collections
  import opened PortfolioTypes

  /** `toUpperCase` on one character, for the ASCII letters. */
  function UpperChar(c: char): char {
    if 'a' <= c <= 'z' then (c as int - 32) as char else c
  }

  /** `s.toUpperCase()`, character by character. */
  function ToUpper(s: string): (r: string)
    ensures |r| == |s|
    ensures forall i :: 0 <= i < |s| ==> r[i] == UpperChar(s[i]) && !('a' <= r[i] <= 'z')
  {
    seq(|s|, i requires 0 <= i < |s| => UpperChar(s[i]))
  }

  /** Upper-casing an upper-cased ticker changes nothing. */
  lemma ToUpperIdempotent(s: string)
    ensures ToUpper(ToUpper(s)) == ToUpper(s)
  {
  }

  /**
   * The settings the panel starts from: seven distinct tickers and K = 4, so a run can be started
   * straight away.
   */
  function DefaultConfig(): (c: PortfolioConfig)
    ensures Distinct(c.tickers) && |c.tickers| == 7
    ensures c.K == 4 && OptimizeEnabled(c, false)
  {
    PortfolioConfig(
      ["AAPL", "MSFT", "GOOGL", "TSLA", "NVDA", "META", "AMZN"],
      "1y", "1d", 0.02, 4, false, 4, 0.5, true, 0.001, [1, 2, 3], 1024)
  }

  /** `updateConfig(field, value)`: one constructor per field of the settings record. */
  datatype ConfigUpdate =
    | SetTickers(tickers: seq<string>)
    | SetPeriod(period: string)
    | SetInterval(interval: string)
    | SetRiskFree(riskFree: real)
    | SetK(K: int)
    | SetUseDiscreteWeights(useDiscreteWeights: bool)
    | SetBitsPerAsset(bitsPerAsset: int)
    | SetMaxWeight(maxWeight: real)
    | SetShrinkLedoitWolf(shrinkLedoitWolf: bool)
    | SetTransactionCost(transactionCost: real)
    | SetPList(pList: seq<int>)
    | SetShots(shots: int)

  /** `c2` agrees with `c` on every field that `u` does not name. */
  predicate SameOutside(c: PortfolioConfig, c2: PortfolioConfig, u: ConfigUpdate) {
    && (u.SetTickers? || c2.tickers == c.tickers)
    && (u.SetPeriod? || c2.period == c.period)
    && (u.SetInterval? || c2.interval == c.interval)
    && (u.SetRiskFree? || c2.riskFree == c.riskFree)
    && (u.SetK? || c2.K == c.K)
    && (u.SetUseDiscreteWeights? || c2.useDiscreteWeights == c.useDiscreteWeights)
    && (u.SetBitsPerAsset? || c2.bitsPerAsset == c.bitsPerAsset)
    && (u.SetMaxWeight? || c2.maxWeight == c.maxWeight)
    && (u.SetShrinkLedoitWolf? || c2.shrinkLedoitWolf == c.shrinkLedoitWolf)
    && (u.SetTransactionCost? || c2.transactionCost == c.transactionCost)
    && (u.SetPList? || c2.pList == c.pList)
    && (u.SetShots? || c2.shots == c.shots)
  }

  /** The field `u` names holds the value `u` carries. */
  predicate Carries(c: PortfolioConfig, u: ConfigUpdate) {
    match u
    case SetTickers(v) => c.tickers == v
    case SetPeriod(v) => c.period == v
    case SetInterval(v) => c.interval == v
    case SetRiskFree(v) => c.riskFree == v
    case SetK(v) => c.K == v
    case SetUseDiscreteWeights(v) => c.useDiscreteWeights == v
    case SetBitsPerAsset(v) => c.bitsPerAsset == v
    case SetMaxWeight(v) => c.maxWeight == v
    case SetShrinkLedoitWolf(v) => c.shrinkLedoitWolf == v
    case SetTransactionCost(v) => c.transactionCost == v
    case SetPList(v) => c.pList == v
    case SetShots(v) => c.shots == v
  }

  /** `{ ...prev, [field]: value }`: the record with one field replaced and the others kept. */
  function Apply(c: PortfolioConfig, u: ConfigUpdate): (r: PortfolioConfig)
    ensures Carries(r, u) && SameOutside(c, r, u)
  {
    match u
    case SetTickers(v) => c.(tickers := v)
    case SetPeriod(v) => c.(period := v)
    case SetInterval(v) => c.(interval := v)
    case SetRiskFree(v) => c.(riskFree := v)
    case SetK(v) => c.(K := v)
    case SetUseDiscreteWeights(v) => c.(useDiscreteWeights := v)
    case SetBitsPerAsset(v) => c.(bitsPerAsset := v)
    case SetMaxWeight(v) => c.(maxWeight := v)
    case SetShrinkLedoitWolf(v) => c.(shrinkLedoitWolf := v)
    case SetTransactionCost(v) => c.(transactionCost := v)
    case SetPList(v) => c.(pList := v)
    case SetShots(v) => c.(shots := v)
  }

  /** Clicking a ticker badge right after adding it takes the list back to what it was. */
  lemma RemoveUndoesAdd(tickers: seq<string>, t: string)
    requires t !in tickers
    ensures Without(tickers + [t], t) == tickers
  {
    WithoutConcat(tickers, [t], t);
    WithoutAbsent(tickers, t);
    assert Without([t], t) == [];
  }

  /** Appending a ticker that is not yet listed keeps the list free of repeats. */
  lemma AppendFreshKeepsDistinct(tickers: seq<string>, t: string)
    requires Distinct(tickers) && t !in tickers
    ensures Distinct(tickers + [t])
  {
    var s := tickers + [t];
    forall i, j | 0 <= i < j < |s| ensures s[i] != s[j] {
      assert s[i] == tickers[i];
      if j < |tickers| {
        assert s[j] == tickers[j];
      }
    }
  }

  /** `!(isOptimizing || config.tickers.length < config.K)`: the optimise button is clickable. */
  function OptimizeEnabled(c: PortfolioConfig, isOptimizing: bool): (enabled: bool)
    ensures enabled <==> !isOptimizing && |c.tickers| >= c.K
  {
    !(isOptimizing || |c.tickers| < c.K)
  }

  /** `config.tickers.length < config.K`: the "Need at least K tickers" line is shown. */
  function ShowsTickerWarning(c: PortfolioConfig): (shown: bool)
    ensures shown <==> !OptimizeEnabled(c, false)
  {
    |c.tickers| < c.K
  }

  /**
   * The warning explains the disabled button: the button is clickable exactly when no run is in
   * flight and no warning is shown.
   */
  lemma WarningMatchesDisabledButton(c: PortfolioConfig, isOptimizing: bool)
    ensures OptimizeEnabled(c, isOptimizing) <==> !isOptimizing && !ShowsTickerWarning(c)
  {
  }

  /** The panel's component state. */
  class PortfolioDashboard {
    var config: PortfolioConfig
    var tickerInput: string

    /** What the ticker handlers keep: the asset universe lists no ticker twice. */
    ghost predicate Valid()
      reads this
    {
      Distinct(config.tickers)
    }

    constructor ()
      ensures config == DefaultConfig() && tickerInput == ""
      ensures Valid()
    {
      config := DefaultConfig();
      tickerInput := "";
    }

    /** The text box's `onChange`. */
    method SetTickerInput(s: string)
      modifies this`tickerInput
      ensures tickerInput == s
    {
      tickerInput := s;
    }

    /**
     * `addTicker`: a non-empty input whose upper-cased form is not yet listed is appended,
     * upper-cased, and the text box is cleared; otherwise nothing changes.
     */
    method AddTicker()
      modifies this
      ensures var t := ToUpper(old(tickerInput));
        if old(tickerInput) != "" && t !in old(config.tickers) then
          config == old(config).(tickers := old(config.tickers) + [t]) && tickerInput == ""
        else
          config == old(config) && tickerInput == old(tickerInput)
      ensures old(Valid()) ==> Valid()
    {
      var t := ToUpper(tickerInput);
      if tickerInput != "" && t !in config.tickers {
        if Distinct(config.tickers) {
          AppendFreshKeepsDistinct(config.tickers, t);
        }
        config := config.(tickers := config.tickers + [t]);
        tickerInput := "";
      }
    }

    /** `removeTicker(t)`: every occurrence of `t` leaves the list; nothing else changes. */
    method RemoveTicker(t: string)
      modifies this`config
      ensures config == old(config).(tickers := Without(old(config.tickers), t))
      ensures old(Valid()) ==> Valid()
    {
      if Distinct(config.tickers) {
        WithoutKeepsDistinct(config.tickers, t);
      }
      config := config.(tickers := Without(config.tickers, t));
    }

    /** `updateConfig(field, value)`: one field replaced. Only a ticker-list update can break `Valid`. */
    method UpdateConfig(u: ConfigUpdate)
      modifies this`config
      ensures config == Apply(old(config), u)
      ensures !u.SetTickers? && old(Valid()) ==> Valid()
    {
      config := Apply(config, u);
    }
  }

  /** A session at the panel: typing, adding, adding again, removing. */
  method AddRemoveSession()
  {
    var d := new PortfolioDashboard();
    d.SetTickerInput("nflx");
    assert ToUpper("nflx") == "NFLX";
    assert "NFLX" !in DefaultConfig().tickers;
    d.AddTicker();
    assert d.config.tickers == DefaultConfig().tickers + ["NFLX"];
    assert d.tickerInput == "";
    d.SetTickerInput("Nflx");
    assert ToUpper("Nflx") == "NFLX";
    d.AddTicker();
    assert d.config.tickers == DefaultConfig().tickers + ["NFLX"];
    assert d.tickerInput == "Nflx";
    d.RemoveTicker("NFLX");
    RemoveUndoesAdd(DefaultConfig().tickers, "NFLX");
    assert d.config == DefaultConfig();
  }
}
