/**
 * The mock weight allocators of the optimisation page (src/pages/Portfolio.tsx): each walks the
 * asset list once, fills a weight dictionary, and (for the clamped ones) normalises it in place.
 * Every `Math.random()` draw is a parameter: `draw(i)` is the draw made while visiting asset `i`.
 *
 * Weights are reals. The "sums to exactly 1" facts below hold over the reals; with JavaScript
 * doubles they hold only up to rounding.
 */
module Allocation {
  import opened Collections
  import opened WeightMap

  /** The smallest weight a non-last asset is given, and the share held back for each asset still to come. */
  const MinWeight: real := 0.05

  /** The range a non-last asset's weight is drawn from, in whole percent: `lo` up to `lo + width`. */
  datatype Band = Band(lo: nat, width: nat)

  /** `generateWeights`: 10% to 50%. */
  const WeightsBand: Band := Band(10, 40)

  /** `generateOptimalWeights`: 20% to 70%. */
  const OptimalBand: Band := Band(20, 50)

  predicate IsDraw(d: real) {
    0.0 <= d < 1.0
  }

  /**
   * `d * n` for a whole number `n`, written as `n` additions of `d` (the same value over the reals,
   * see `TimesIsProduct`). Every `Math.random() * c` whose bound the model needs goes through it.
   */
  function Times(d: real, n: nat): real {
    if n == 0 then 0.0 else Times(d, n - 1) + d
  }

  lemma {:induction false} TimesIsProduct(d: real, n: nat)
    ensures Times(d, n) == d * n as real
  {
    if n > 0 {
      TimesIsProduct(d, n - 1);
    }
  }

  /** A draw scales `n` to somewhere in `[0, n)` (to 0 when `n` is 0). */
  lemma {:induction false} DrawTimes(d: real, n: nat)
    requires IsDraw(d)
    ensures 0.0 <= Times(d, n) <= n as real
    ensures n > 0 ==> Times(d, n) < n as real
  {
    if n > 0 {
      DrawTimes(d, n - 1);
    }
  }

  /**
   * The weight proposed for draw `d`: `Math.floor(d * width + lo) / 100` in discrete mode, which
   * is a whole percentage, and `d * (width / 100) + lo / 100` in continuous mode.
   */
  function Proposal(band: Band, discrete: bool, d: real): (w: real)
    ensures discrete ==> (w * 100.0).Floor as real == w * 100.0
  {
    if discrete then (Times(d, band.width) + band.lo as real).Floor as real / 100.0
    else Times(d, band.width) / 100.0 + band.lo as real / 100.0
  }

  /** Both modes propose a weight inside the band, `lo` to `lo + width` percent. */
  lemma ProposalInBand(band: Band, discrete: bool, d: real)
    requires IsDraw(d)
    ensures band.lo as real / 100.0 <= Proposal(band, discrete, d) <= (band.lo + band.width) as real / 100.0
  {
    if discrete {
      DiscreteProposalInBand(band, d);
    } else {
      ContinuousProposalInBand(band, d);
    }
  }

  /** In discrete mode the proposal is a whole percentage from `lo` to `lo + width`. */
  lemma DiscreteProposalInBand(band: Band, d: real)
    requires IsDraw(d)
    ensures band.lo as real / 100.0 <= Proposal(band, true, d) <= (band.lo + band.width) as real / 100.0
  {
    DrawTimes(d, band.width);
    var k := (Times(d, band.width) + band.lo as real).Floor;
    assert band.lo <= k <= band.lo + band.width;
  }

  lemma ContinuousProposalInBand(band: Band, d: real)
    requires IsDraw(d)
    ensures band.lo as real / 100.0 <= Proposal(band, false, d) <= (band.lo + band.width) as real / 100.0
  {
    DrawTimes(d, band.width);
  }

  function Min(a: real, b: real): real { if a < b then a else b }

  function Max(a: real, b: real): real { if a < b then b else a }

  /**
   * `Math.max(0.05, Math.min(w, remaining - (n - i - 1) * 0.05))` for asset `i` of `n`: the
   * proposal cut down so that 5% is left for each later asset, but never under 5%.
   */
  function Clamp(w: real, remaining: real, n: nat, i: nat): (x: real)
    ensures MinWeight <= x <= Max(MinWeight, w)
    ensures x == MinWeight || x <= remaining - (n - i - 1) as real * MinWeight
  {
    Max(MinWeight, Min(w, remaining - (n - i - 1) as real * MinWeight))
  }

  /** The `forEach` after visiting the first `k` assets: the weights written so far and `remainingWeight`. */
  datatype Walk = Walk(raw: seq<real>, remaining: real)

  /**
   * The clamped walk over `n` assets, stopped after `k` of them. A non-last asset takes its
   * clamped proposal, which is subtracted from the remainder; the last asset takes the remainder.
   */
  function WalkTo(n: nat, k: nat, band: Band, discrete: bool, draw: nat -> real): (w: Walk)
    requires k <= n
    ensures |w.raw| == k
  {
    if k == 0 then Walk([], 1.0)
    else
      var prev := WalkTo(n, k - 1, band, discrete, draw);
      if k == n then Walk(prev.raw + [prev.remaining], prev.remaining)
      else
        var x := Clamp(Proposal(band, discrete, draw(k - 1)), prev.remaining, n, k - 1);
        Walk(prev.raw + [x], prev.remaining - x)
  }

  /** The weights before normalisation, one per position of the asset list. */
  function RawWeights(n: nat, band: Band, discrete: bool, draw: nat -> real): (raw: seq<real>)
    ensures |raw| == n
  {
    WalkTo(n, n, band, discrete, draw).raw
  }

  /** One step of the walk, as the loop body takes it. */
  lemma WalkStep(n: nat, i: nat, band: Band, discrete: bool, draw: nat -> real)
    requires i < n
    ensures var prev, next := WalkTo(n, i, band, discrete, draw), WalkTo(n, i + 1, band, discrete, draw);
      if i == n - 1 then next.raw == prev.raw + [prev.remaining] && next.remaining == prev.remaining
      else
        var x := Clamp(Proposal(band, discrete, draw(i)), prev.remaining, n, i);
        next.raw == prev.raw + [x] && next.remaining == prev.remaining - x
  {
  }

  /** A later stop of the walk extends an earlier one. */
  lemma {:induction false} WalkExtends(n: nat, j: nat, k: nat, band: Band, discrete: bool, draw: nat -> real)
    requires j <= k <= n
    ensures WalkTo(n, j, band, discrete, draw).raw == WalkTo(n, k, band, discrete, draw).raw[..j]
    decreases k - j
  {
    if j < k {
      WalkExtends(n, j, k - 1, band, discrete, draw);
      var prev := WalkTo(n, k - 1, band, discrete, draw).raw;
      assert WalkTo(n, k, band, discrete, draw).raw[..k - 1] == prev;
      assert prev[..j] == WalkTo(n, k, band, discrete, draw).raw[..j];
    } else {
      assert WalkTo(n, k, band, discrete, draw).raw[..k] == WalkTo(n, k, band, discrete, draw).raw;
    }
  }

  /** Before the last asset, what was handed out plus what remains is the whole. */
  lemma {:induction false} WalkConserves(n: nat, k: nat, band: Band, discrete: bool, draw: nat -> real)
    requires k < n
    ensures Sum(WalkTo(n, k, band, discrete, draw).raw) + WalkTo(n, k, band, discrete, draw).remaining == 1.0
  {
    if k > 0 {
      WalkConserves(n, k - 1, band, discrete, draw);
      var prev := WalkTo(n, k - 1, band, discrete, draw);
      var x := Clamp(Proposal(band, discrete, draw(k - 1)), prev.remaining, n, k - 1);
      SumAppend(prev.raw, x);
    }
  }

  /**
   * The raw weights: each non-last one lies between 5% and its proposal (when that is larger),
   * the last one is exactly the remainder left by the others, and they sum to 1.
   */
  lemma RawWeightsShape(n: nat, band: Band, discrete: bool, draw: nat -> real)
    requires n >= 1
    ensures var raw := RawWeights(n, band, discrete, draw);
      && (forall j :: 0 <= j < n - 1 ==> MinWeight <= raw[j] <= Max(MinWeight, Proposal(band, discrete, draw(j))))
      && raw[n - 1] == WalkTo(n, n - 1, band, discrete, draw).remaining
      && Sum(raw) == 1.0
  {
    var raw := RawWeights(n, band, discrete, draw);
    var prev := WalkTo(n, n - 1, band, discrete, draw);
    forall j | 0 <= j < n - 1
      ensures MinWeight <= raw[j] <= Max(MinWeight, Proposal(band, discrete, draw(j)))
    {
      WalkExtends(n, j + 1, n, band, discrete, draw);
      assert raw[j] == WalkTo(n, j + 1, band, discrete, draw).raw[j];
    }
    WalkConserves(n, n - 1, band, discrete, draw);
    SumAppend(prev.raw, prev.remaining);
  }

  /** With at most 20 assets, each later asset's 5% is still available when it is reached. */
  lemma {:induction false} WalkReserves(n: nat, k: nat, band: Band, discrete: bool, draw: nat -> real)
    requires k < n <= 20
    ensures WalkTo(n, k, band, discrete, draw).remaining >= (n - k) as real * MinWeight
  {
    if k > 0 {
      WalkReserves(n, k - 1, band, discrete, draw);
    }
  }

  /** With at most 20 assets, every raw weight, the last one included, is at least 5%. */
  lemma AtMostTwentyAssetsAllAtLeastFloor(n: nat, band: Band, discrete: bool, draw: nat -> real)
    requires 1 <= n <= 20
    ensures forall j :: 0 <= j < n ==> RawWeights(n, band, discrete, draw)[j] >= MinWeight
  {
    RawWeightsShape(n, band, discrete, draw);
    WalkReserves(n, n - 1, band, discrete, draw);
  }

  /** With more than 20 assets, the reserve can never be met: every non-last asset is held at 5%. */
  lemma {:induction false} WalkStarved(n: nat, k: nat, band: Band, discrete: bool, draw: nat -> real)
    requires 20 < n && k < n
    ensures WalkTo(n, k, band, discrete, draw).remaining == 1.0 - k as real * MinWeight
    ensures forall j :: 0 <= j < k ==> WalkTo(n, k, band, discrete, draw).raw[j] == MinWeight
  {
    if k > 0 {
      WalkStarved(n, k - 1, band, discrete, draw);
    }
  }

  /**
   * With more than 20 assets every non-last weight is exactly 5% and the last asset gets
   * `1 - (n - 1) * 5%`, under 5%: zero for 21 assets and negative beyond.
   */
  lemma OverTwentyAssetsLastStarved(n: nat, band: Band, discrete: bool, draw: nat -> real)
    requires n > 20
    ensures var raw := RawWeights(n, band, discrete, draw);
      && (forall j :: 0 <= j < n - 1 ==> raw[j] == MinWeight)
      && raw[n - 1] == 1.0 - (n - 1) as real * MinWeight
      && raw[n - 1] < MinWeight
      && (n > 21 ==> raw[n - 1] < 0.0)
  {
    WalkStarved(n, n - 1, band, discrete, draw);
    var prev := WalkTo(n, n - 1, band, discrete, draw).raw;
    assert RawWeights(n, band, discrete, draw)[..n - 1] == prev;
  }

  /**
   * The normalisation pass: every value divided by the sum of the values. A dictionary whose
   * values sum to 0 is left as it is: the source would divide by zero there (see README).
   */
  function Normalized(d: Dict): (r: Dict)
    ensures Keys(r) == Keys(d)
    ensures Sum(Values(d)) != 0.0 ==> Values(r) == DivideAll(Values(d), Sum(Values(d))) && Sum(Values(r)) == 1.0
    ensures Sum(Values(d)) == 0.0 ==> r == d
  {
    var total := Sum(Values(d));
    if total == 0.0 then d
    else
      SumDivideAll(Values(d), total);
      assert total / total == 1.0;
      Scale(d, total)
  }

  /** Dividing by a total of 1 changes nothing. */
  lemma NormalizedWhenSumIsOne(d: Dict)
    requires Sum(Values(d)) == 1.0
    ensures Normalized(d) == d
  {
    var r := Normalized(d);
    assert |r| == |d|;
    forall i | 0 <= i < |d| ensures r[i] == d[i] {
      assert Keys(r)[i] == Keys(d)[i];
      assert Values(r)[i] == Values(d)[i] / 1.0;
    }
  }

  /** What `generateWeights` (band 10-50%) or `generateOptimalWeights` (band 20-70%) returns. */
  function ClampedWeights(assets: seq<string>, discrete: bool, band: Band, draw: nat -> real): (r: Dict)
    ensures Distinct(Keys(r))
    ensures forall k :: k in Keys(r) <==> k in assets
  {
    FillKeySet(assets, RawWeights(|assets|, band, discrete, draw));
    Normalized(Fill(assets, RawWeights(|assets|, band, discrete, draw)))
  }

  /**
   * For a list without repeats the clamped allocation holds each asset once, in list order, at
   * its raw weight (normalising a total of 1 changes nothing), and the weights sum to 1.
   */
  lemma ClampedWeightsOfDistinct(assets: seq<string>, discrete: bool, band: Band, draw: nat -> real)
    requires Distinct(assets) && |assets| >= 1
    ensures Pairs(ClampedWeights(assets, discrete, band, draw), assets, RawWeights(|assets|, band, discrete, draw))
    ensures Sum(Values(ClampedWeights(assets, discrete, band, draw))) == 1.0
  {
    var raw := RawWeights(|assets|, band, discrete, draw);
    FillDistinct(assets, raw);
    RawWeightsShape(|assets|, band, discrete, draw);
    NormalizedWhenSumIsOne(Fill(assets, raw));
  }

  /** For at most 20 assets without repeats, no weight of the clamped allocation is under 5%. */
  lemma ClampedWeightsFloor(assets: seq<string>, discrete: bool, band: Band, draw: nat -> real)
    requires Distinct(assets) && 1 <= |assets| <= 20
    ensures forall w :: w in Values(ClampedWeights(assets, discrete, band, draw)) ==> w >= MinWeight
  {
    ClampedWeightsOfDistinct(assets, discrete, band, draw);
    AtMostTwentyAssetsAllAtLeastFloor(|assets|, band, discrete, draw);
  }

  /** `1.0 / assets.length`. With no assets JavaScript gives Infinity, which no entry receives. */
  function EqualShare(n: nat): (share: real)
    ensures n > 0 ==> n as real * share == 1.0
  {
    if n == 0 then 0.0 else 1.0 / n as real
  }

  /** What `generateEqualWeights` returns: every asset at one n-th. */
  function EqualWeights(assets: seq<string>): (r: Dict)
    ensures Distinct(Keys(r))
    ensures forall k :: k in Keys(r) <==> k in assets
  {
    FillKeySet(assets, Repeat(EqualShare(|assets|), |assets|));
    Fill(assets, Repeat(EqualShare(|assets|), |assets|))
  }

  /** For a list of `n >= 1` assets without repeats: `n` keys, in list order, each at `1/n`, summing to 1. */
  lemma EqualWeightsOfDistinct(assets: seq<string>)
    requires Distinct(assets) && |assets| >= 1
    ensures Pairs(EqualWeights(assets), assets, Repeat(1.0 / |assets| as real, |assets|))
    ensures Sum(Values(EqualWeights(assets))) == 1.0
  {
    var n := |assets|;
    FillDistinct(assets, Repeat(EqualShare(n), n));
    SumRepeat(1.0 / n as real, n);
    assert n as real * (1.0 / n as real) == 1.0;
  }

  /** The draws `assets.map(() => Math.random())`. */
  function DrawSeq(draw: nat -> real, n: nat): (rs: seq<real>)
    ensures |rs| == n && forall i :: 0 <= i < n ==> rs[i] == draw(i)
  {
    seq(n, i requires 0 <= i < n => draw(i))
  }

  /** Each draw over the sum of the draws; all-zero draws are left as they are (see README). */
  function Shares(rs: seq<real>): (shares: seq<real>)
    ensures |shares| == |rs|
    ensures Sum(rs) != 0.0 ==> Sum(shares) == 1.0
    ensures Sum(rs) == 0.0 ==> shares == rs
  {
    var total := Sum(rs);
    if total == 0.0 then rs
    else
      SumDivideAll(rs, total);
      assert total / total == 1.0;
      DivideAll(rs, total)
  }

  /** With draws in `[0, 1)` and a positive total, every share lies in `[0, 1]` and the shares sum to 1. */
  lemma SharesBounded(rs: seq<real>)
    requires forall i :: 0 <= i < |rs| ==> IsDraw(rs[i])
    requires Sum(rs) > 0.0
    ensures |Shares(rs)| == |rs|
    ensures forall i :: 0 <= i < |rs| ==> 0.0 <= Shares(rs)[i] <= 1.0 && Shares(rs)[i] == rs[i] / Sum(rs)
    ensures Sum(Shares(rs)) == 1.0
  {
    var total := Sum(rs);
    var shares := Shares(rs);
    assert shares == DivideAll(rs, total);
    assert Sum(shares) == 1.0 by {
      SumDivideAll(rs, total);
      assert total / total == 1.0;
    }
    SumBoundsTerms(rs);
    forall i | 0 <= i < |rs| ensures 0.0 <= shares[i] <= 1.0 {
      FractionBounded(rs[i], total);
    }
  }

  lemma FractionBounded(a: real, t: real)
    requires 0.0 <= a <= t && t > 0.0
    ensures 0.0 <= a / t <= 1.0
  {
  }

  /** Share `i` is draw `i` over the total, or draw `i` itself when the total is 0. */
  lemma ShareAt(rs: seq<real>, i: nat)
    requires i < |rs|
    ensures |Shares(rs)| == |rs|
    ensures Shares(rs)[i] == if Sum(rs) == 0.0 then rs[i] else rs[i] / Sum(rs)
  {
  }

  /** What `generateTangencyWeights` returns: asset `i` at draw `i` over the sum of all draws. */
  function TangencyWeights(assets: seq<string>, draw: nat -> real): (r: Dict)
    ensures Distinct(Keys(r))
    ensures forall k :: k in Keys(r) <==> k in assets
  {
    FillKeySet(assets, Shares(DrawSeq(draw, |assets|)));
    Fill(assets, Shares(DrawSeq(draw, |assets|)))
  }

  /** For a list without repeats: each asset once, in list order, at its share; summing to 1 when some draw is positive. */
  lemma TangencyWeightsOfDistinct(assets: seq<string>, draw: nat -> real)
    requires Distinct(assets)
    requires forall i :: 0 <= i < |assets| ==> IsDraw(draw(i))
    ensures Pairs(TangencyWeights(assets, draw), assets, Shares(DrawSeq(draw, |assets|)))
    ensures Sum(DrawSeq(draw, |assets|)) > 0.0 ==> Sum(Values(TangencyWeights(assets, draw))) == 1.0
  {
    var rs := DrawSeq(draw, |assets|);
    if Sum(rs) > 0.0 {
      SharesBounded(rs);
    }
    FillDistinct(assets, Shares(rs));
  }

  /** `xs.reduce((sum, w) => sum + w, 0)`. */
  method Total(xs: seq<real>) returns (total: real)
    ensures total == Sum(xs)
  {
    total := 0.0;
    var i := 0;
    while i < |xs|
      invariant i <= |xs|
      invariant total == Sum(xs[..i])
    {
      assert xs[..i + 1] == xs[..i] + [xs[i]];
      SumAppend(xs[..i], xs[i]);
      total := total + xs[i];
      i := i + 1;
    }
    assert xs[..i] == xs;
  }

  /** `Object.keys(weights).forEach(asset => { weights[asset] = weights[asset] / total })`. */
  method DivideInPlace(d: Dict, total: real) returns (r: Dict)
    requires total != 0.0
    ensures r == Scale(d, total)
  {
    r := d;
    var i := 0;
    while i < |r|
      invariant i <= |r| == |d|
      invariant forall j :: 0 <= j < i ==> r[j] == Entry(d[j].key, d[j].value / total)
      invariant forall j :: i <= j < |r| ==> r[j] == d[j]
    {
      r := r[i := Entry(r[i].key, r[i].value / total)];
      i := i + 1;
    }
  }

  /**
   * The shared body of `generateWeights` and `generateOptimalWeights`: the clamped walk over the
   * assets with a running `remainingWeight`, then the normalisation pass.
   */
  method AllocateClamped(assets: seq<string>, discrete: bool, band: Band, draw: nat -> real)
    returns (weights: Dict)
    ensures weights == ClampedWeights(assets, discrete, band, draw)
  {
    weights := ClampedWalk(assets, discrete, band, draw);
    weights := NormalizeInPlace(weights);
  }

  /** The `forEach` of the clamped allocators: one `weights[asset] = ...` per asset, in list order. */
  method ClampedWalk(assets: seq<string>, discrete: bool, band: Band, draw: nat -> real)
    returns (weights: Dict)
    ensures weights == Fill(assets, RawWeights(|assets|, band, discrete, draw))
  {
    var n := |assets|;
    ghost var raw := RawWeights(n, band, discrete, draw);
    weights := [];
    var remaining := 1.0;
    var i := 0;
    while i < n
      invariant i <= n
      invariant weights == Fill(assets[..i], raw[..i])
      invariant remaining == WalkTo(n, i, band, discrete, draw).remaining
    {
      var written;
      written, remaining := ClampedStep(n, i, remaining, band, discrete, draw);
      FillNext(assets, raw, i, weights, written);
      weights := Put(weights, assets[i], written);
      i := i + 1;
    }
    assert assets[..n] == assets && raw[..n] == raw;
  }

  /** The walk's dictionary after asset `i` is written: the next prefix of the assignments. */
  lemma FillNext(ks: seq<string>, vs: seq<real>, i: nat, d: Dict, v: real)
    requires |ks| == |vs| && i < |ks| && d == Fill(ks[..i], vs[..i]) && v == vs[i]
    ensures Put(d, ks[i], v) == Fill(ks[..i + 1], vs[..i + 1])
  {
    FillPrefix(ks, vs, i);
  }

  /**
   * The body of that `forEach` for asset `i` of `n`: the last asset takes what remains; any other
   * takes `Math.max(0.05, Math.min(weight, remainingWeight - (n - i - 1) * 0.05))`, which is
   * then subtracted from the remainder.
   */
  method ClampedStep(n: nat, i: nat, remaining: real, band: Band, discrete: bool, draw: nat -> real)
    returns (written: real, remaining': real)
    requires i < n && remaining == WalkTo(n, i, band, discrete, draw).remaining
    ensures written == RawWeights(n, band, discrete, draw)[i]
    ensures remaining' == WalkTo(n, i + 1, band, discrete, draw).remaining
  {
    WalkStep(n, i, band, discrete, draw);
    if i == n - 1 {
      written := remaining;
      remaining' := remaining;
    } else {
      var weight := Proposal(band, discrete, draw(i));
      var actualWeight := Min(weight, remaining - (n - i - 1) as real * MinWeight);
      written := Max(MinWeight, actualWeight);
      remaining' := remaining - written;
    }
    assert WalkTo(n, i + 1, band, discrete, draw).raw[i] == written;
    WalkExtends(n, i + 1, n, band, discrete, draw);
  }

  /** The normalisation pass: total the values, then divide each by the total. */
  method NormalizeInPlace(d: Dict) returns (r: Dict)
    ensures r == Normalized(d)
  {
    var total := Total(Values(d));
    r := d;
    if total != 0.0 {
      r := DivideInPlace(d, total);
    }
  }

  /** `generateWeights(assets, discrete)`. */
  method GenerateWeights(assets: seq<string>, discrete: bool, draw: nat -> real) returns (weights: Dict)
    ensures weights == ClampedWeights(assets, discrete, WeightsBand, draw)
  {
    weights := AllocateClamped(assets, discrete, WeightsBand, draw);
  }

  /** `generateOptimalWeights(assets, discrete)`. */
  method GenerateOptimalWeights(assets: seq<string>, discrete: bool, draw: nat -> real) returns (weights: Dict)
    ensures weights == ClampedWeights(assets, discrete, OptimalBand, draw)
  {
    weights := AllocateClamped(assets, discrete, OptimalBand, draw);
  }

  /** `generateEqualWeights(assets)`. */
  method GenerateEqualWeights(assets: seq<string>) returns (weights: Dict)
    ensures weights == EqualWeights(assets)
  {
    var n := |assets|;
    var equalWeight := EqualShare(n);
    weights := [];
    var i := 0;
    while i < n
      invariant i <= n
      invariant weights == Fill(assets[..i], Repeat(equalWeight, n)[..i])
    {
      FillPrefix(assets, Repeat(equalWeight, n), i);
      weights := Put(weights, assets[i], equalWeight);
      i := i + 1;
    }
    assert assets[..n] == assets && Repeat(equalWeight, n)[..n] == Repeat(equalWeight, n);
  }

  /** `assets.map(() => Math.random())`. */
  method DrawAll(draw: nat -> real, n: nat) returns (randomWeights: seq<real>)
    ensures randomWeights == DrawSeq(draw, n)
  {
    randomWeights := [];
    var i := 0;
    while i < n
      invariant i <= n
      invariant randomWeights == DrawSeq(draw, i)
    {
      randomWeights := randomWeights + [draw(i)];
      i := i + 1;
    }
  }

  /** `generateTangencyWeights(assets)`: draw, total the draws, then assign each draw over the total. */
  method GenerateTangencyWeights(assets: seq<string>, draw: nat -> real) returns (weights: Dict)
    ensures weights == TangencyWeights(assets, draw)
  {
    var n := |assets|;
    var randomWeights := DrawAll(draw, n);
    var total := Total(randomWeights);
    ghost var shares := Shares(randomWeights);
    weights := [];
    var i := 0;
    while i < n
      invariant i <= n
      invariant weights == Fill(assets[..i], shares[..i])
    {
      var share := if total == 0.0 then randomWeights[i] else randomWeights[i] / total;
      ShareAt(randomWeights, i);
      FillPrefix(assets, shares, i);
      weights := Put(weights, assets[i], share);
      i := i + 1;
    }
    assert assets[..n] == assets && shares[..n] == shares;
  }
}
