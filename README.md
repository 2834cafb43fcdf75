# QAOA portfolio optimiser: the settings panel, the mock optimiser and the results view

This project models the logic of the three screens of the QAOA Portfolio Optimizer web app in
Dafny:

- **The settings panel** (`PortfolioDashboard`). It holds the optimiser's settings and a text box
  for a new ticker. Three handlers edit them: `addTicker`, `removeTicker` and `updateConfig`. A
  guard enables the "Optimize" button, and a warning explains when the button is off. The panel is
  the class `Dashboard.PortfolioDashboard`. Its invariant is that the ticker list has no repeats.
- **The optimisation page** (`Portfolio`). It has two views and an `isOptimizing` flag, modelled
  as the class `Portfolio.PortfolioPage`. Its mock optimiser `simulateOptimization` builds four
  results (Greedy, QAOA, QAOA + Refine and Tangency) from the settings and from `Math.random()`
  draws. Each draw is a parameter of the model, a real in `[0, 1)`.
  The weight allocators are methods with loops (module `Allocation`), each proved equal to a
  specification function:
  - `generateWeights` and `generateOptimalWeights` make a clamped walk with a running remainder,
    then normalise in place;
  - `generateEqualWeights` gives every asset the same weight;
  - `generateTangencyWeights` divides each draw by the total of the draws.
- **The results view** (`PortfolioResults`). It picks the best result with a first-maximum reduce,
  classifies Sharpe ratios into colours and icons, builds the chart rows, and indexes the colour
  palettes (module `Results`).

A JavaScript object used as a weight dictionary is an insertion-ordered sequence of entries
(module `WeightMap`). `d[k] = v` keeps an existing key in its place and appends a new key last.

Weights and ratios are reals. So "sums to 1" is exact here, while with JavaScript doubles it holds
only up to rounding.

The main results (module `Properties`) connect the three files:

- The panel keeps the ticker list free of repeats. So when a run with K >= 1 is started from the
  panel, each allocator's dictionary holds every selected ticker once, in list order. Greedy's,
  QAOA's and QAOA + Refine's weights sum to 1. Tangency's weights sum to 1 when at least one of its
  draws is positive; if every draw is 0, the source divides by zero.
- The four Sharpe ratios fall in disjoint, increasing bands. So the results view always headlines
  the fourth result, Tangency. With K >= 0 it shows that result as green, trending up and
  converged.
- The page shows the results view only after a run has completed, and then holds the four results
  of the last completed run (`Portfolio.PortfolioPage.Valid`). So the results view headlines that
  run's Tangency result.

Both conditions on K hold for every value the panel's K slider offers, since its minimum is 2.

The clamped allocators have one behaviour that is proved outright, not assumed away. With at most
20 assets, every weight is at least 5%. With more than 20, every non-last asset is held at exactly
5%, and the last gets `1 - (n - 1) * 5%`: zero for 21 assets, and negative beyond that
(`Allocation.OverTwentyAssetsLastStarved`). The panel's K slider stops at 10, so a run from the
panel never selects more than 20 assets for these allocators.

## Model

| member | source | states |
|---|---|---|
| Collections.Without | src/components/PortfolioDashboard.tsx:63 | the filtered list no longer holds the removed ticker and is no longer than before |
| Collections.WithoutMembers | src/components/PortfolioDashboard.tsx:63 | a value survives the filter iff it was in the list and is not the removed ticker |
| Collections.WithoutConcat | src/components/PortfolioDashboard.tsx:63 | filtering distributes over concatenation, so the survivors keep their relative order |
| Collections.WithoutAbsent | src/components/PortfolioDashboard.tsx:60-64 | removing a ticker that is not listed changes nothing |
| Collections.WithoutIdempotent | src/components/PortfolioDashboard.tsx:60-64 | removing the same ticker twice is the same as removing it once |
| Collections.WithoutKeepsDistinct | src/components/PortfolioDashboard.tsx:63 | removing a ticker from a list without repeats leaves a list without repeats |
| Collections.WithoutDistinctAt | src/components/PortfolioDashboard.tsx:63 | in a list without repeats, removing the ticker at position i splices out exactly that position |
| Collections.Prefix | src/pages/Portfolio.tsx:42 | `slice(0, K)` is the prefix of the ticker list whose length is K clamped to the list, with a negative K counting back from the end |
| Collections.PrefixKeepsDistinct | src/pages/Portfolio.tsx:42 | the selection from a list without repeats has no repeats |
| Collections.SumAppend | src/pages/Portfolio.tsx:116 | `Sum` is the reduce `(sum, w) => sum + w` from 0: one more value at the end adds exactly that value to the total |
| Collections.SumConcat | src/pages/Portfolio.tsx:166 | the reduce's total of two runs of values placed one after the other is the sum of their totals |
| Collections.SumRepeat | src/pages/Portfolio.tsx:126-129 | n copies of x total n * x, so n equal shares of 1/n total 1 |
| Collections.SumMultiplyAll | src/components/PortfolioResults.tsx:52 | multiplying every value by c multiplies the total by c |
| Collections.SumBoundsTerms | src/pages/Portfolio.tsx:166-169 | a total of non-negative values is non-negative and at least each of them |
| Collections.SumDivideAll | src/pages/Portfolio.tsx:116-119 | dividing every value by t divides their sum by t |
| WeightMap.Keys | src/pages/Portfolio.tsx:117 | `Object.keys` lists the entries' keys in insertion order |
| WeightMap.Values | src/pages/Portfolio.tsx:116 | `Object.values` lists the entries' values in insertion order |
| WeightMap.Put | src/pages/Portfolio.tsx:104 | after `d[k] = v` the dictionary holds the entry k: v, and it has grown by at most one entry |
| WeightMap.PutKeepsOthers | src/pages/Portfolio.tsx:110 | assigning `d[k]` keeps every entry of another key |
| WeightMap.PutKeys | src/pages/Portfolio.tsx:104 | assigning `d[k]` keeps the key list when k is present and appends k when it is not |
| WeightMap.PutFresh | src/pages/Portfolio.tsx:128 | assigning a key that is not yet present appends one entry after all the others |
| WeightMap.PutKeepsKeysDistinct | src/pages/Portfolio.tsx:110 | assigning into a dictionary never creates a second entry for a key |
| WeightMap.Fill | src/pages/Portfolio.tsx:127-129 | a `forEach` of assignments gives at most one entry per asset, and holds the last asset at its value |
| WeightMap.FillKeySet | src/pages/Portfolio.tsx:127-129 | the filled dictionary's keys have no repeats and are exactly the assigned keys, even when the asset list has repeats |
| WeightMap.FillAppend | src/pages/Portfolio.tsx:127-129 | a `forEach` of assignments with one more asset is the shorter walk followed by one more assignment |
| WeightMap.FillPrefix | src/pages/Portfolio.tsx:168-170 | the walk after i + 1 assignments is the walk after i followed by assignment i |
| WeightMap.FillKeys | src/pages/Portfolio.tsx:127-129 | the filled dictionary's keys have no repeats and are exactly the assigned keys |
| WeightMap.FillDistinct | src/pages/Portfolio.tsx:127-129 | with no repeated key, the filled dictionary's keys and values are the assigned ones, in order |
| WeightMap.Scale | src/pages/Portfolio.tsx:117-119 | dividing in place keeps the keys and divides every value by the total |
| Dashboard.ToUpper | src/components/PortfolioDashboard.tsx:51 | upper-casing keeps the length, maps each character, and leaves no lower-case ASCII letter |
| Dashboard.ToUpperIdempotent | src/components/PortfolioDashboard.tsx:51-54 | upper-casing an upper-cased ticker changes nothing |
| Dashboard.DefaultConfig | src/components/PortfolioDashboard.tsx:33-46 | the default settings list 7 tickers without repeats, with K = 4, so the button starts enabled |
| Dashboard.Apply | src/components/PortfolioDashboard.tsx:67-69 | the updated record holds the new value in the named field and agrees with the old record on every other field |
| Dashboard.RemoveUndoesAdd | src/components/PortfolioDashboard.tsx:50-65 | removing a ticker just appended to a list that lacked it gives back the original list |
| Dashboard.AppendFreshKeepsDistinct | src/components/PortfolioDashboard.tsx:51-55 | appending a ticker that is not yet listed keeps the list free of repeats |
| Dashboard.OptimizeEnabled | src/components/PortfolioDashboard.tsx:334 | the button is enabled iff no run is in flight and there are at least K tickers |
| Dashboard.ShowsTickerWarning | src/components/PortfolioDashboard.tsx:350-354 | the "Need at least K tickers" warning shows iff the button would be disabled with no run in flight |
| Dashboard.WarningMatchesDisabledButton | src/components/PortfolioDashboard.tsx:334-354 | the button is enabled iff no run is in flight and the warning is not shown |
| Dashboard.PortfolioDashboard.constructor | src/components/PortfolioDashboard.tsx:33-48 | the panel starts from the default settings and an empty text box, with no repeated ticker |
| Dashboard.PortfolioDashboard.SetTickerInput | src/components/PortfolioDashboard.tsx:103 | typing replaces the text box and nothing else |
| Dashboard.PortfolioDashboard.AddTicker | src/components/PortfolioDashboard.tsx:50-58 | a non-empty input whose upper-cased form is new is appended upper-cased at the end, and the box is cleared; an empty or duplicate input changes nothing; no repeat is ever introduced |
| Dashboard.PortfolioDashboard.RemoveTicker | src/components/PortfolioDashboard.tsx:60-65 | only the ticker list changes, to the list without the ticker; no repeat is introduced |
| Dashboard.PortfolioDashboard.UpdateConfig | src/components/PortfolioDashboard.tsx:67-69 | the settings become the old ones with the one field replaced; any update other than of the ticker list keeps the list free of repeats |
| Allocation.TimesIsProduct | src/pages/Portfolio.tsx:107 | the repeated-addition form of `d * n` equals the product |
| Allocation.DrawTimes | src/pages/Portfolio.tsx:107 | a draw in [0, 1) scales n to a value in [0, n) |
| Allocation.Proposal | src/pages/Portfolio.tsx:106-108 | in discrete mode the proposed weight is a whole number of percent |
| Allocation.ProposalInBand | src/pages/Portfolio.tsx:106-108 | in both modes the proposed weight lies between lo and lo + width percent |
| Allocation.DiscreteProposalInBand | src/pages/Portfolio.tsx:107 | the discrete proposal `floor(d * width + lo) / 100` lies between lo and lo + width percent |
| Allocation.ContinuousProposalInBand | src/pages/Portfolio.tsx:108 | the continuous proposal `d * width% + lo%` lies between lo and lo + width percent |
| Allocation.Clamp | src/pages/Portfolio.tsx:109-110 | a clamped weight is at least 5%, at most the proposal (or 5%), and either exactly 5% or leaves 5% for each later asset |
| Allocation.WalkTo | src/pages/Portfolio.tsx:102 | the `forEach` stopped after k assets has written k weights |
| Allocation.RawWeights | src/pages/Portfolio.tsx:102 | the walk writes one raw weight per asset; their bounds and sum are stated by `Allocation.RawWeightsShape` |
| Allocation.WalkStep | src/pages/Portfolio.tsx:102-112 | one step of the walk: the last asset takes the remainder; any other takes its clamped proposal, which leaves the remainder |
| Allocation.WalkExtends | src/pages/Portfolio.tsx:102 | a later stop of the walk extends the weights written at an earlier stop |
| Allocation.WalkConserves | src/pages/Portfolio.tsx:100-111 | before the last asset, the weights handed out plus the remainder make 1 |
| Allocation.RawWeightsShape | src/pages/Portfolio.tsx:102-113 | every non-last raw weight lies between 5% and its proposal, the last is exactly the remainder, and the raw weights sum to 1 |
| Allocation.WalkReserves | src/pages/Portfolio.tsx:109 | with at most 20 assets, 5% per asset still to come is always left |
| Allocation.AtMostTwentyAssetsAllAtLeastFloor | src/pages/Portfolio.tsx:102-113 | with 1 to 20 assets, every raw weight, the last included, is at least 5% |
| Allocation.WalkStarved | src/pages/Portfolio.tsx:109-111 | with more than 20 assets, every asset reached so far is held at 5% and the remainder is 1 minus 5% per asset |
| Allocation.OverTwentyAssetsLastStarved | src/pages/Portfolio.tsx:102-113 | with more than 20 assets, the non-last weights are all 5%, and the last is `1 - (n - 1) * 5%`: under 5%, and negative beyond 21 assets |
| Allocation.Normalized | src/pages/Portfolio.tsx:115-119 | normalising keeps the keys; when the total is nonzero, every value becomes raw / total and the values sum to 1 |
| Allocation.NormalizedWhenSumIsOne | src/pages/Portfolio.tsx:115-119 | normalising a dictionary whose values already sum to 1 changes nothing |
| Allocation.ClampedWeights | src/pages/Portfolio.tsx:98-122 | the clamped allocation has exactly the assets as keys, none twice |
| Allocation.ClampedWeightsOfDistinct | src/pages/Portfolio.tsx:98-122 | for a list without repeats, the allocation holds each asset once, in order, at its raw weight, and sums to 1 |
| Allocation.ClampedWeightsFloor | src/pages/Portfolio.tsx:133-159 | for 1 to 20 assets without repeats, no weight of the allocation is under 5% |
| Allocation.EqualShare | src/pages/Portfolio.tsx:126 | for n >= 1 assets, n shares of `1.0 / n` make exactly 1 |
| Allocation.EqualWeights | src/pages/Portfolio.tsx:124-131 | the equal allocation has exactly the assets as keys, none twice |
| Allocation.EqualWeightsOfDistinct | src/pages/Portfolio.tsx:124-131 | for n >= 1 assets without repeats, there are n keys in list order, each at 1/n, summing to 1 |
| Allocation.DrawSeq | src/pages/Portfolio.tsx:165 | the mapped draws are one per asset, draw i at position i |
| Allocation.Shares | src/pages/Portfolio.tsx:165-170 | one share per draw; when the draws' total is nonzero the shares sum to 1, and when it is 0 the draws are left as they are |
| Allocation.SharesBounded | src/pages/Portfolio.tsx:165-170 | with draws in [0, 1) and a positive total, each share is draw / total, lies in [0, 1], and the shares sum to 1 |
| Allocation.ShareAt | src/pages/Portfolio.tsx:169 | share i is draw i over the total of the draws |
| Allocation.TangencyWeights | src/pages/Portfolio.tsx:161-173 | the Tangency allocation has exactly the assets as keys, none twice |
| Allocation.TangencyWeightsOfDistinct | src/pages/Portfolio.tsx:161-173 | for a list without repeats, each asset appears once, in order, at its share, and the shares sum to 1 when some draw is positive |
| Allocation.Total | src/pages/Portfolio.tsx:166 | the reduce returns the sum of the values |
| Allocation.DivideInPlace | src/pages/Portfolio.tsx:117-119 | the in-place pass divides every value by the total and keeps the keys |
| Allocation.AllocateClamped | src/pages/Portfolio.tsx:98-122 | the walk followed by the normalisation pass gives the clamped allocation |
| Allocation.ClampedWalk | src/pages/Portfolio.tsx:102-113 | the loop assigns each asset its raw weight, in list order |
| Allocation.ClampedStep | src/pages/Portfolio.tsx:103-111 | the loop body writes raw weight i and leaves the walk's next remainder |
| Allocation.NormalizeInPlace | src/pages/Portfolio.tsx:115-119 | totalling and dividing in place gives the normalised dictionary |
| Allocation.GenerateWeights | src/pages/Portfolio.tsx:98-122 | `generateWeights` returns the clamped allocation of the 10-50% band |
| Allocation.GenerateOptimalWeights | src/pages/Portfolio.tsx:133-159 | `generateOptimalWeights` returns the clamped allocation of the 20-70% band |
| Allocation.GenerateEqualWeights | src/pages/Portfolio.tsx:124-131 | the loop assigns every asset 1/n, in list order |
| Allocation.DrawAll | src/pages/Portfolio.tsx:165 | the map collects one draw per asset, in order |
| Allocation.GenerateTangencyWeights | src/pages/Portfolio.tsx:161-173 | the loop assigns every asset its draw over the total of the draws, in list order |
| Portfolio.BaseSharpe | src/pages/Portfolio.tsx:45 | the base level is 0.85 + K / 100, or 0.90 + K / 100 with discrete weights |
| Portfolio.IterationCount | src/pages/Portfolio.tsx:67 | `Math.floor(d * span) + first` is the whole number n with n - first <= d * span < n - first + 1 |
| Portfolio.IterationCountRange | src/pages/Portfolio.tsx:67 | `floor(d * span) + first` with a draw in [0, 1) lies from first to first + span - 1 |
| Portfolio.SimulateOptimization | src/pages/Portfolio.tsx:37-96 | four results named Greedy, QAOA, QAOA + Refine and Tangency, in that order; the first three select `tickers.slice(0, K)` and Tangency selects every ticker |
| Portfolio.GreedyResult | src/pages/Portfolio.tsx:48-57 | "Greedy (eq-w)" over the first K tickers, 1 iteration, converged, with a Sharpe ratio in [b - 0.15, b - 0.05) for a draw in [0, 1) |
| Portfolio.QaoaResult | src/pages/Portfolio.tsx:60-69 | "QAOA (eq-w)" over the first K tickers, converged iff its draw exceeds 0.2, with a Sharpe ratio in [b + 0.10, b + 0.25) |
| Portfolio.RefineResult | src/pages/Portfolio.tsx:72-81 | "QAOA + Refine" over the first K tickers, converged iff its draw exceeds 0.1, with a Sharpe ratio in [b + 0.50, b + 0.70) |
| Portfolio.TangencyResult | src/pages/Portfolio.tsx:84-93 | "Tangency (no card)" over every ticker, 1 iteration, converged, with a Sharpe ratio in [b + 0.85, b + 1.10) |
| Portfolio.SharpeBands | src/pages/Portfolio.tsx:45-88 | with draws in [0, 1), the four Sharpe ratios lie in disjoint bands around the base level and strictly increase in result order |
| Portfolio.IterationsAndConvergence | src/pages/Portfolio.tsx:55-92 | Greedy and Tangency report 1 iteration and convergence; QAOA reports 8-22 iterations and converges iff its draw exceeds 0.2; Refine reports 12-31 and 0.1 |
| Portfolio.ReturnAndVolatilityBands | src/pages/Portfolio.tsx:53-90 | each expected return and volatility lies in the range its draw is scaled to |
| Portfolio.PortfolioPage.constructor | src/pages/Portfolio.tsx:32-34 | the page starts on the dashboard, not optimising, with no results, and satisfies the page invariant |
| Portfolio.PortfolioPage.HandleOptimize | src/pages/Portfolio.tsx:175-186 | the flag ends lowered; a completed run stores `simulateOptimization` of its settings and draws and shows the results view; a failed run leaves the view, the results and the record of the last run as they were; the invariant (the results view only with results, which are those of the last completed run) is kept |
| Portfolio.PortfolioPage.HandleBack | src/pages/Portfolio.tsx:188-190 | the view returns to the dashboard, nothing else changes, and the invariant is kept |
| Results.Reduce | src/components/PortfolioResults.tsx:37-39 | the running best stays a position of the list, is either the seed or a later position, and never has a smaller Sharpe ratio than the seed |
| Results.ReduceFindsFirstMaximum | src/components/PortfolioResults.tsx:37-39 | the reduce's running best ends on a largest Sharpe ratio, with every earlier one strictly smaller |
| Results.BestIndex | src/components/PortfolioResults.tsx:37-39 | for a non-empty list, the chosen position has the largest Sharpe ratio and is the first such |
| Results.FirstMaximumIsBest | src/components/PortfolioResults.tsx:37-39 | any position with the largest Sharpe ratio and strictly smaller ones before it is the one the reduce picks |
| Results.BestResult | src/components/PortfolioResults.tsx:37-39 | the best result is one of the results, and no result has a larger Sharpe ratio |
| Results.PerformanceColor | src/components/PortfolioResults.tsx:64-68 | success iff the ratio is above 1.0, warning iff it is in (0.5, 1.0], destructive iff it is at most 0.5 |
| Results.PerformanceColorMonotone | src/components/PortfolioResults.tsx:64-68 | a larger Sharpe ratio never gets a worse colour |
| Results.PerformanceIcon | src/components/PortfolioResults.tsx:70-72 | the up arrow iff the Sharpe ratio is positive |
| Results.ConvergenceBadge | src/components/PortfolioResults.tsx:93 | the header badge reads "Converged" iff the best result converged |
| Results.ConvergenceStatus | src/components/PortfolioResults.tsx:435 | the analysis tab reads "Converged" iff the best result converged |
| Results.PerformanceData | src/components/PortfolioResults.tsx:42-48 | one row per result, in order, at its own index, with return and volatility in percent |
| Results.AllocationData | src/components/PortfolioResults.tsx:50-54 | one row per weight entry, in key order, with the weight in percent and the raw value |
| Results.Percentages | src/components/PortfolioResults.tsx:52 | the pie's percentages are the rows' weights, in order |
| Results.AllocationPercentagesTotal | src/components/PortfolioResults.tsx:50-54 | the pie's percentages add up to 100 times the weights' total |
| Results.PieColor | src/components/PortfolioResults.tsx:199 | `COLORS[index % 7]` is always a palette colour, and cycles with period 7 |
| Results.BarColor | src/components/PortfolioResults.tsx:285-286 | `colors[index]` is defined iff the index is below 4, and is then the palette's entry |
| Properties.TangencyIsAlwaysBest | src/pages/Portfolio.tsx:84-95 | with draws in [0, 1), whatever the settings, the results view headlines the fourth result, Tangency, over the full ticker list |
| Properties.LastOfIncreasingIsBest | src/components/PortfolioResults.tsx:37-39 | of four results with strictly increasing Sharpe ratios, the reduce picks the fourth |
| Properties.HeadlineLooksGood | src/components/PortfolioResults.tsx:91-112 | with K >= 0, the headline Sharpe ratio is at least 1.7, shown green with the up arrow, and both status texts read "Converged" |
| Properties.DashboardRunSelection | src/pages/Portfolio.tsx:42-57 | a run enabled from a panel without repeats selects the first K tickers, none twice, and Greedy gives each 1/K, summing to 1 |
| Properties.DashboardRunWeights | src/pages/Portfolio.tsx:59-81 | in such a run, QAOA and QAOA + Refine hold one raw clamped weight per selected ticker, in order, summing to 1 |
| Properties.DashboardRunWeightFloor | src/pages/Portfolio.tsx:59-81 | in such a run with K at most 20, no QAOA or QAOA + Refine weight is under 5% |
| Properties.HeadlineAllocation | src/components/PortfolioResults.tsx:50-54 | the headline allocation holds every ticker once, in order, at its Tangency share; the pie's percentages add up to 100 when some draw is positive |
| Properties.ResultsViewHeadline | src/pages/Portfolio.tsx:175-198 | whenever the page shows the results view and the last run's draws lie in [0, 1), it holds four results and headlines that run's Tangency result over its full ticker list; with K >= 0 that headline is green and converged |
| Properties.BarColorsDefinedForRuns | src/components/PortfolioResults.tsx:285-286 | every bar of a run's Sharpe chart gets a colour |
| Properties.FifthBarHasNoColor | src/components/PortfolioResults.tsx:285-286 | a fifth result's bar would get no colour |

## Left out

- src/pages/Landing.tsx is not part of this model: it is static copy and links, with no logic.
- JSX markup, CSS classes, the chart and widget components, and the `toFixed` text formatting are
  not modelled. They are rendering done by libraries outside the three files.
- The 3-second `setTimeout` and the `async`/`await` of `simulateOptimization` and `handleOptimize`
  are not modelled. `Portfolio.PortfolioPage.HandleOptimize` is one sequential step whose outcome
  is a parameter (`fails`). While a run is in flight, `isOptimizing` is true, but that in-between
  state cannot be observed in the model.
- Portfolio.PortfolioPage.HandleBack: the page and the panel are separate objects in the model,
  and the page does not own the panel. In the app, a completed run replaces the panel with the
  results view, which discards the panel's settings and text box. Back then mounts a new panel
  from the default settings. `Properties.OptimizeSession` creates that new
  `Dashboard.PortfolioDashboard` after Back, and its settings are `Dashboard.DefaultConfig()`. A
  failed run never leaves the dashboard, so the panel keeps its state.
- The `console.error` logging of a failed run is not modelled; it is output only.
- `Math.random()` is not modelled. Every draw is a parameter; the lemmas that need it assume the
  draw lies in `[0, 1)`. The `historicalData` series of the results view is random chart data
  that nothing else reads, so it is left out.
- IEEE doubles are modelled as reals. Every "sums to 1" fact is exact over the reals and holds
  only up to rounding in JavaScript.
- Allocation.Times: `d * n` by a whole number `n` is written as `n` repeated additions.
  `Allocation.TimesIsProduct` proves it equal to the product.
- Dashboard.ToUpper: maps only the ASCII letters. Unicode case mapping is not modelled.
- The sliders' minimum and maximum, including K's range of 2 to 10, are enforced by the widgets,
  not by the handlers. So the model does not assume them, and K is any integer.
- Allocation.WalkTo and Allocation.RawWeights: their own contracts state only how many weights
  are written. The bounds, the remainder and the sum of 1 are proved about them in
  `Allocation.WalkConserves`, `Allocation.WalkReserves` and `Allocation.RawWeightsShape`, so that
  every caller of the walk does not carry those facts.
- Allocation.Normalized: when the values sum to 0, the source divides by zero and produces NaN or
  infinities. The model leaves such a dictionary undivided and proves nothing about it.
- Allocation.Shares: when every draw is 0, the source divides by zero. The model leaves the draws
  undivided. `Allocation.TangencyWeightsOfDistinct` promises a sum of 1 only when some draw is
  positive.
- Allocation.EqualShare: for an empty asset list the source computes `1 / 0 = Infinity`, but no
  entry receives it. The model uses 0.
- WeightMap.Put: JavaScript enumerates integer-like keys (such as "42") before other keys, in
  numeric order. The model keeps every key in insertion order.
- Dashboard.PortfolioDashboard.UpdateConfig: an update of the ticker list through `updateConfig`
  can introduce a repeat. The panel never sends one, but the handler does not check. So the
  invariant is promised only for the other fields.
