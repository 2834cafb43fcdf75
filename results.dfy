/**
 * The results view (src/components/PortfolioResults.tsx): which result is shown as the best, how
 * Sharpe ratios are coloured, and the rows handed to the charts.
 */
module Results {
  import opened Collections
  import opened WeightMap
  import opened PortfolioTypes

  /** The reduce's running best after visiting positions up to `k - 1`, starting from position `best`. */
  function Reduce(results: seq<PortfolioResult>, k: nat, best: nat): (b: nat)
    requires best < k <= |results|
    ensures b < |results| && (b == best || k <= b)
    ensures results[best].sharpeRatio <= results[b].sharpeRatio
    decreases |results| - k
  {
    if k == |results| then best
    else Reduce(results, k + 1, if results[k].sharpeRatio > results[best].sharpeRatio then k else best)
  }

  /** The reduce keeps the first position of the largest Sharpe ratio seen so far. */
  lemma {:induction false} ReduceFindsFirstMaximum(results: seq<PortfolioResult>, k: nat, best: nat)
    requires best < k <= |results|
    requires forall j :: 0 <= j < k ==> results[j].sharpeRatio <= results[best].sharpeRatio
    requires forall j :: 0 <= j < best ==> results[j].sharpeRatio < results[best].sharpeRatio
    ensures var b := Reduce(results, k, best);
      && b < |results|
      && (forall j :: 0 <= j < |results| ==> results[j].sharpeRatio <= results[b].sharpeRatio)
      && (forall j :: 0 <= j < b ==> results[j].sharpeRatio < results[b].sharpeRatio)
    decreases |results| - k
  {
    if k < |results| {
      var next := if results[k].sharpeRatio > results[best].sharpeRatio then k else best;
      ReduceFindsFirstMaximum(results, k + 1, next);
    }
  }

  /**
   * The position of `results.reduce((best, current) => current.sharpeRatio > best.sharpeRatio ? current : best)`:
   * a largest Sharpe ratio, and of those the first, since the comparison is strict. Without a
   * seed the reduce needs at least one result.
   */
  function BestIndex(results: seq<PortfolioResult>): (b: nat)
    requires |results| > 0
    ensures b < |results|
    ensures forall j :: 0 <= j < |results| ==> results[j].sharpeRatio <= results[b].sharpeRatio
    ensures forall j :: 0 <= j < b ==> results[j].sharpeRatio < results[b].sharpeRatio
  {
    ReduceFindsFirstMaximum(results, 1, 0);
    Reduce(results, 1, 0)
  }

  /** Those two properties pick out one position: the first maximum. */
  lemma FirstMaximumIsBest(results: seq<PortfolioResult>, i: nat)
    requires i < |results|
    requires forall j :: 0 <= j < |results| ==> results[j].sharpeRatio <= results[i].sharpeRatio
    requires forall j :: 0 <= j < i ==> results[j].sharpeRatio < results[i].sharpeRatio
    ensures BestIndex(results) == i
  {
  }

  /** `bestResult`: a result of the list whose Sharpe ratio no other result exceeds. */
  function BestResult(results: seq<PortfolioResult>): (r: PortfolioResult)
    requires |results| > 0
    ensures r in results
    ensures forall j :: 0 <= j < |results| ==> results[j].sharpeRatio <= r.sharpeRatio
  {
    results[BestIndex(results)]
  }

  /** The text colours `text-success`, `text-warning` and `text-destructive`. */
  datatype Tone = Success | Warning | Destructive

  /** How good a tone reads: destructive below warning below success. */
  function Rank(t: Tone): nat {
    match t
    case Destructive => 0
    case Warning => 1
    case Success => 2
  }

  /** `getPerformanceColor`: above 1.0 success, above 0.5 warning, otherwise destructive. */
  function PerformanceColor(sharpe: real): (t: Tone)
    ensures t == Success <==> sharpe > 1.0
    ensures t == Warning <==> 0.5 < sharpe <= 1.0
    ensures t == Destructive <==> sharpe <= 0.5
  {
    if sharpe > 1.0 then Success
    else if sharpe > 0.5 then Warning
    else Destructive
  }

  /** A larger Sharpe ratio never gets a worse colour. */
  lemma PerformanceColorMonotone(a: real, b: real)
    requires a <= b
    ensures Rank(PerformanceColor(a)) <= Rank(PerformanceColor(b))
  {
  }

  datatype Icon = TrendingUp | TrendingDown

  /** `getPerformanceIcon`: the up arrow for a positive Sharpe ratio. */
  function PerformanceIcon(sharpe: real): (i: Icon)
    ensures i == TrendingUp <==> sharpe > 0.0
  {
    if sharpe > 0.0 then TrendingUp else TrendingDown
  }

  /** The header badge: `Converged` or `Max Iterations`. */
  function ConvergenceBadge(convergence: bool): (text: string)
    ensures text == "Converged" <==> convergence
  {
    if convergence then "Converged" else "Max Iterations"
  }

  /** The QAOA analysis tab's status: `Converged` or `Max Reached`. */
  function ConvergenceStatus(convergence: bool): (text: string)
    ensures text == "Converged" <==> convergence
  {
    if convergence then "Converged" else "Max Reached"
  }

  /** One bar of the Sharpe comparison chart. */
  datatype PerformanceRow = PerformanceRow(methodName: string, sharpe: real, returnPercent: real, volatilityPercent: real, index: nat)

  /** `performanceData`: one row per result, in result order, at its own position, in percent. */
  function PerformanceData(results: seq<PortfolioResult>): (rows: seq<PerformanceRow>)
    ensures |rows| == |results|
    ensures forall i :: 0 <= i < |results| ==>
      && rows[i].index == i
      && rows[i].methodName == results[i].methodName && rows[i].sharpe == results[i].sharpeRatio
      && rows[i].returnPercent == results[i].expectedReturn * 100.0
      && rows[i].volatilityPercent == results[i].volatility * 100.0
  {
    seq(|results|, i requires 0 <= i < |results| =>
      PerformanceRow(results[i].methodName, results[i].sharpeRatio,
        results[i].expectedReturn * 100.0, results[i].volatility * 100.0, i))
  }

  /** One slice of the allocation pie: the asset, its weight in percent, and the weight itself. */
  datatype AllocationRow = AllocationRow(asset: string, weight: real, value: real)

  /** `Object.entries(weights).map(([asset, weight]) => ...)`: one row per key, in key order. */
  function AllocationData(weights: Dict): (rows: seq<AllocationRow>)
    ensures |rows| == |weights|
    ensures forall i :: 0 <= i < |weights| ==>
      rows[i].asset == weights[i].key && rows[i].value == weights[i].value && rows[i].weight == weights[i].value * 100.0
  {
    seq(|weights|, i requires 0 <= i < |weights| => AllocationRow(weights[i].key, weights[i].value * 100.0, weights[i].value))
  }

  /** The pie's percentages. */
  function Percentages(rows: seq<AllocationRow>): (ps: seq<real>)
    ensures |ps| == |rows| && forall i :: 0 <= i < |rows| ==> ps[i] == rows[i].weight
  {
    seq(|rows|, i requires 0 <= i < |rows| => rows[i].weight)
  }

  /** The pie's percentages add up to 100 times the weights' total. */
  lemma AllocationPercentagesTotal(weights: Dict)
    ensures Sum(Percentages(AllocationData(weights))) == Sum(Values(weights)) * 100.0
  {
    assert Percentages(AllocationData(weights)) == MultiplyAll(Values(weights), 100.0);
    SumMultiplyAll(Values(weights), 100.0);
  }

  const Colors: seq<string> := ["#3B82F6", "#10B981", "#F59E0B", "#EF4444", "#8B5CF6", "#06B6D4", "#F97316"]

  /** `COLORS[index % COLORS.length]`: in range for every slice, cycling through the seven colours. */
  function PieColor(index: nat): (c: string)
    ensures c in Colors
    ensures index >= |Colors| ==> c == PieColor(index - |Colors|)
  {
    assert index >= |Colors| ==> (index - |Colors|) % |Colors| == index % |Colors|;
    Colors[index % |Colors|]
  }

  /** The four bar colours: gray, blue, green and gold. */
  const BarColors: seq<string> := ["#6B7280", "#3B82F6", "#10B981", "#F59E0B"]

  /** `colors[index]`: a colour for the first four bars, `undefined` for any later one. */
  function BarColor(index: nat): (c: Option<string>)
    ensures c.Some? <==> index < |BarColors|
    ensures c.Some? ==> c.value == BarColors[index]
  {
    if index < |BarColors| then Some(BarColors[index]) else None
  }
}
