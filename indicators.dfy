/** Indicators: the exponential moving average and the simplified relative
    strength index over a price history, with prices taken as exact reals.
    `calcEMA` is the same text in app.js and server.js; `calcRSI` is written
    with `map` in server.js (the function Rsi here) and with a loop in app.js
    (the method Browser.CalcRsi). */
module Indicators {
  import opened Ticks

  /** The five averages both deployments keep: periods 5, 10, 20, 50, 200. */
  datatype Emas = Emas(e5: real, e10: real, e20: real, e50: real, e200: real)

  /** `prices.reduce((a, b) => a + b, 0)`. */
  function Sum(ps: seq<real>): real {
    if ps == [] then 0.0 else Sum(ps[..|ps| - 1]) + ps[|ps| - 1]
  }

  /** One step of the recurrence `ema = price * k + ema * (1 - k)`. */
  function Step(ema: real, price: real, k: real): real {
    price * k + ema * (1.0 - k)
  }

  /** The recurrence applied to every price of `ps` in order, from `seed`. */
  function Smooth(seed: real, ps: seq<real>, k: real): real {
    if ps == [] then seed else Step(Smooth(seed, ps[..|ps| - 1], k), ps[|ps| - 1], k)
  }

  /** The smoothing factor `k = 2 / (period + 1)`. */
  function Smoothing(period: nat): (k: real)
    requires period >= 1
    ensures 0.0 < k <= 1.0
  {
    2.0 / (period as real + 1.0)
  }

  /** `calcEMA(prices, period)`: with fewer than `period` prices, the last price
      (0 when there is none); otherwise the mean of the first `period` prices
      smoothed by every later price. */
  function Ema(ps: seq<real>, period: nat): (r: real)
    requires period >= 1
    ensures |ps| == 0 ==> r == 0.0
    ensures 0 < |ps| < period ==> r == ps[|ps| - 1]
    ensures |ps| == period ==> r == Sum(ps) / period as real
  {
    if |ps| < period then (if |ps| == 0 then 0.0 else ps[|ps| - 1])
    else
      assert |ps| == period ==> ps[..period] == ps && ps[period..] == [];
      Smooth(Sum(ps[..period]) / period as real, ps[period..], Smoothing(period))
  }

  /** The loop of `calcEMA`, proved to compute Ema. */
  method CalcEma(prices: seq<real>, period: nat) returns (ema: real)
    requires period >= 1
    ensures ema == Ema(prices, period)
  {
    if |prices| < period {
      return if |prices| == 0 then 0.0 else prices[|prices| - 1];
    }
    var k := 2.0 / (period as real + 1.0);
    var seed := Sum(prices[..period]) / period as real;
    ema := seed;
    var i := period;
    while i < |prices|
      invariant period <= i <= |prices|
      invariant ema == Smooth(seed, prices[period..i], k)
    {
      assert prices[period..i + 1] == prices[period..i] + [prices[i]];
      ema := prices[i] * k + ema * (1.0 - k);
      i := i + 1;
    }
    assert prices[period..i] == prices[period..];
  }

  /** Every price of `ps` lies in [lo, hi]. */
  predicate Within(ps: seq<real>, lo: real, hi: real) {
    forall i :: 0 <= i < |ps| ==> lo <= ps[i] <= hi
  }

  lemma {:induction false} SumWithin(ps: seq<real>, lo: real, hi: real)
    requires Within(ps, lo, hi)
    ensures |ps| as real * lo <= Sum(ps) <= |ps| as real * hi
  {
    if ps == [] {
      assert |ps| as real * lo == 0.0 == |ps| as real * hi;
    } else {
      var init := ps[..|ps| - 1];
      var last := ps[|ps| - 1];
      assert Within(init, lo, hi);
      SumWithin(init, lo, hi);
      var n := |init| as real;
      assert Sum(ps) == Sum(init) + last;
      assert lo <= last <= hi;
      MulSucc(n, lo);
      MulSucc(n, hi);
      assert |ps| as real == n + 1.0;
      assert |ps| as real * lo == n * lo + lo;
      assert |ps| as real * hi == n * hi + hi;
    }
  }

  lemma MulSucc(n: real, x: real)
    ensures (n + 1.0) * x == n * x + x
  {
  }

  lemma StepWithin(ema: real, price: real, k: real, lo: real, hi: real)
    requires 0.0 <= k <= 1.0 && lo <= ema <= hi && lo <= price <= hi
    ensures lo <= Step(ema, price, k) <= hi
  {
    NonNegProduct(price - lo, k);
    NonNegProduct(ema - lo, 1.0 - k);
    NonNegProduct(hi - price, k);
    NonNegProduct(hi - ema, 1.0 - k);
    assert Step(ema, price, k) - lo == (price - lo) * k + (ema - lo) * (1.0 - k);
    assert hi - Step(ema, price, k) == (hi - price) * k + (hi - ema) * (1.0 - k);
  }

  lemma NonNegProduct(a: real, b: real)
    requires a >= 0.0 && b >= 0.0
    ensures a * b >= 0.0
  {
  }

  lemma {:induction false} SmoothWithin(seed: real, ps: seq<real>, k: real, lo: real, hi: real)
    requires 0.0 <= k <= 1.0 && lo <= seed <= hi && Within(ps, lo, hi)
    ensures lo <= Smooth(seed, ps, k) <= hi
  {
    if ps != [] {
      assert Within(ps[..|ps| - 1], lo, hi);
      SmoothWithin(seed, ps[..|ps| - 1], k, lo, hi);
      StepWithin(Smooth(seed, ps[..|ps| - 1], k), ps[|ps| - 1], k, lo, hi);
    }
  }

  /** A total of n values in [lo, hi], divided by n, lies in [lo, hi]. */
  lemma MeanWithin(total: real, n: real, lo: real, hi: real)
    requires n > 0.0 && n * lo <= total <= n * hi
    ensures lo <= total / n <= hi
  {
    assert total / n * n == total;
  }

  /** An EMA of a non-empty history lies between the lowest and the highest
      price it has seen: seed and recurrence are both averages. */
  lemma EmaWithin(ps: seq<real>, period: nat, lo: real, hi: real)
    requires period >= 1 && |ps| > 0 && Within(ps, lo, hi)
    ensures lo <= Ema(ps, period) <= hi
  {
    if |ps| >= period {
      var head := ps[..period];
      assert Within(head, lo, hi);
      SumWithin(head, lo, hi);
      var seed := Sum(head) / period as real;
      MeanWithin(Sum(head), period as real, lo, hi);
      assert Within(ps[period..], lo, hi);
      SmoothWithin(seed, ps[period..], Smoothing(period), lo, hi);
    }
  }

  /** Prices 1..5 over period 5: the seed is their mean 3 and no step follows. */
  lemma EmaExample()
    ensures Ema([1.0, 2.0, 3.0, 4.0, 5.0], 5) == 3.0
  {
    var ps := [1.0, 2.0, 3.0, 4.0, 5.0];
    assert Sum([1.0]) == 1.0 by { assert [1.0][..0] == []; }
    assert Sum([1.0, 2.0]) == 3.0 by { assert [1.0, 2.0][..1] == [1.0]; }
    assert Sum([1.0, 2.0, 3.0]) == 6.0 by { assert [1.0, 2.0, 3.0][..2] == [1.0, 2.0]; }
    assert Sum([1.0, 2.0, 3.0, 4.0]) == 10.0 by { assert [1.0, 2.0, 3.0, 4.0][..3] == [1.0, 2.0, 3.0]; }
    assert Sum(ps) == 15.0 by { assert ps[..4] == [1.0, 2.0, 3.0, 4.0]; }
  }

  /** A flat history has that price as every EMA. */
  lemma EmaOfFlat(ps: seq<real>, period: nat, c: real)
    requires period >= 1 && |ps| > 0
    requires forall i :: 0 <= i < |ps| ==> ps[i] == c
    ensures Ema(ps, period) == c
  {
    EmaWithin(ps, period, c, c);
  }

  /** The five averages over one history, as `updateIndicators` and
      `computeStats` store them. */
  function EmasOf(ps: seq<real>): (e: Emas)
    ensures ps == [] ==> e == Emas(0.0, 0.0, 0.0, 0.0, 0.0)
    ensures 0 < |ps| < 5 ==> var p := ps[|ps| - 1]; e == Emas(p, p, p, p, p)
  {
    Emas(Ema(ps, 5), Ema(ps, 10), Ema(ps, 20), Ema(ps, 50), Ema(ps, 200))
  }

  /** All five averages of a non-empty history lie between its lowest and
      its highest price. */
  lemma EmasWithin(ps: seq<real>, lo: real, hi: real)
    requires |ps| > 0 && Within(ps, lo, hi)
    ensures var e := EmasOf(ps);
      && lo <= e.e5 <= hi && lo <= e.e10 <= hi && lo <= e.e20 <= hi
      && lo <= e.e50 <= hi && lo <= e.e200 <= hi
  {
    EmaWithin(ps, 5, lo, hi);
    EmaWithin(ps, 10, lo, hi);
    EmaWithin(ps, 20, lo, hi);
    EmaWithin(ps, 50, lo, hi);
    EmaWithin(ps, 200, lo, hi);
  }

  /** `ema20 > ema50 > ema200`. */
  predicate BullTrend(e: Emas) {
    e.e20 > e.e50 && e.e50 > e.e200
  }

  /** `ema20 < ema50 < ema200`. */
  predicate BearTrend(e: Emas) {
    e.e20 < e.e50 && e.e50 < e.e200
  }

  /** The two trends never hold together. */
  lemma TrendsExclusive(e: Emas)
    ensures !(BullTrend(e) && BearTrend(e))
  {
  }

  /** The RISE rule of both deployments: bull trend, RSI in (50, 70), price above ema50. */
  predicate RiseSetup(rsi: real, e: Emas, price: real) {
    BullTrend(e) && rsi > 50.0 && rsi < 70.0 && price > e.e50
  }

  /** The FALL rule of both deployments: bear trend, RSI in (30, 50), price below ema50. */
  predicate FallSetup(rsi: real, e: Emas, price: real) {
    BearTrend(e) && rsi < 50.0 && rsi > 30.0 && price < e.e50
  }

  /** The two setups never hold together, so the order in which the rules
      test them does not matter. */
  lemma SetupsExclusive(rsi: real, e: Emas, price: real)
    ensures !(RiseSetup(rsi, e, price) && FallSetup(rsi, e, price))
  {
  }

  /** Consecutive differences `prices[i + 1] - prices[i]`. */
  function Changes(ps: seq<real>): (cs: seq<real>)
    ensures |cs| == Max(|ps| - 1, 0)
    ensures forall i {:trigger cs[i]} :: 0 <= i < |cs| ==> cs[i] == ps[i + 1] - ps[i]
  {
    if |ps| == 0 then [] else seq(|ps| - 1, i requires 0 <= i < |ps| - 1 => ps[i + 1] - ps[i])
  }

  /** Sum of the positive changes: `filter(c => c > 0).reduce(+)`. */
  function Gains(cs: seq<real>): (g: real)
    ensures g >= 0.0
  {
    if cs == [] then 0.0
    else Gains(cs[..|cs| - 1]) + (if cs[|cs| - 1] > 0.0 then cs[|cs| - 1] else 0.0)
  }

  /** Sum of the magnitudes of the negative changes:
      `filter(c => c < 0).map(c => -c).reduce(+)`. */
  function Losses(cs: seq<real>): (l: real)
    ensures l >= 0.0
  {
    if cs == [] then 0.0
    else Losses(cs[..|cs| - 1]) + (if cs[|cs| - 1] < 0.0 then -cs[|cs| - 1] else 0.0)
  }

  /** There is no gain exactly when no change is positive. */
  lemma {:induction false} GainsZero(cs: seq<real>)
    ensures Gains(cs) == 0.0 <==> forall i :: 0 <= i < |cs| ==> cs[i] <= 0.0
  {
    if cs != [] {
      var init := cs[..|cs| - 1];
      GainsZero(init);
      assert forall i :: 0 <= i < |init| ==> init[i] == cs[i];
    }
  }

  /** There is no loss exactly when no change is negative. */
  lemma {:induction false} LossesZero(cs: seq<real>)
    ensures Losses(cs) == 0.0 <==> forall i :: 0 <= i < |cs| ==> cs[i] >= 0.0
  {
    if cs != [] {
      var init := cs[..|cs| - 1];
      LossesZero(init);
      assert forall i :: 0 <= i < |init| ==> init[i] == cs[i];
    }
  }

  /** `changes.slice(-period)`: the last `period` changes. */
  function RecentChanges(ps: seq<real>, period: nat): (recent: seq<real>)
    requires period >= 1 && |ps| >= period + 1
    ensures |recent| == period
    ensures recent == Changes(ps)[|ps| - 1 - period..]
  {
    var cs := Changes(ps);
    if |cs| == period then cs else cs[|cs| - period..]
  }

  /** The recent changes are `changes.slice(-period)`. */
  lemma RecentChangesSlice(ps: seq<real>, period: nat)
    requires period >= 1 && |ps| >= period + 1
    ensures RecentChanges(ps, period) == SliceFrom(Changes(ps), -(period as int))
  {
    SliceFromRecent(Changes(ps), period);
  }

  /** No recent change is negative exactly when the last `period + 1` prices
      never fall. */
  lemma RecentNeverFall(ps: seq<real>, period: nat)
    requires period >= 1 && |ps| >= period + 1
    ensures (forall j :: 0 <= j < period ==> RecentChanges(ps, period)[j] >= 0.0)
        <==> (forall i :: |ps| - 1 - period <= i < |ps| - 1 ==> ps[i] <= ps[i + 1])
  {
    var recent, base := RecentChanges(ps, period), |ps| - 1 - period;
    forall i | base <= i < |ps| - 1
      ensures recent[i - base] == ps[i + 1] - ps[i]
    {
    }
    forall j | 0 <= j < period
      ensures recent[j] == ps[base + j + 1] - ps[base + j]
    {
    }
  }

  /** `100 - 100 / (1 + rs)` for a non-negative ratio `rs = gains / losses`:
      in [0, 100), 0 only for rs = 0, above 50 exactly when rs > 1. */
  lemma RsiCurve(rs: real)
    requires rs >= 0.0
    ensures var r := 100.0 - 100.0 / (1.0 + rs);
      && 0.0 <= r < 100.0
      && (r == 0.0 <==> rs == 0.0)
      && (r > 50.0 <==> rs > 1.0)
      && (r == 50.0 <==> rs == 1.0)
  {
    var y := 100.0 / (1.0 + rs);
    assert y * (1.0 + rs) == 100.0;
    assert y > 0.0;
    assert y * rs >= 0.0;
    assert y == 100.0 - y * rs;
    assert y < 50.0 <==> rs > 1.0 by {
      if y < 50.0 { assert y * (1.0 + rs) < 50.0 * (1.0 + rs); }
      if rs > 1.0 { assert y * (1.0 + rs) > y * 2.0; }
    }
    assert y == 50.0 <==> rs == 1.0 by {
      if y == 50.0 { assert 50.0 * (1.0 + rs) == 100.0; }
    }
  }

  /** The RSI of a window of changes, gains and losses both averaged over
      `period`: 100 when there is no loss, else `100 - 100 / (1 + gains / losses)`. */
  function RsiOf(recent: seq<real>, period: nat): (r: real)
    requires period >= 1
    ensures 0.0 <= r <= 100.0
    ensures r == 100.0 <==> Losses(recent) == 0.0
  {
    var gains := Gains(recent) / period as real;
    var losses := Losses(recent) / period as real;
    if losses == 0.0 then 100.0
    else
      RsiCurve(gains / losses);
      100.0 - 100.0 / (1.0 + gains / losses)
  }

  /** `calcRSI(prices, period)` as server.js writes it: 50 below `period + 1`
      prices; otherwise the RSI of the last `period` changes. */
  function Rsi(ps: seq<real>, period: nat): (r: real)
    requires period >= 1
    ensures 0.0 <= r <= 100.0
    ensures |ps| < period + 1 ==> r == 50.0
  {
    if |ps| < period + 1 then 50.0
    else RsiOf(RecentChanges(ps, period), period)
  }

  /** The RSI is 100 exactly when the last `period + 1` prices never fall. */
  lemma RsiFullStrength(ps: seq<real>, period: nat)
    requires period >= 1 && |ps| >= period + 1
    ensures Rsi(ps, period) == 100.0 <==> forall i :: |ps| - 1 - period <= i < |ps| - 1 ==> ps[i] <= ps[i + 1]
  {
    RecentNeverFall(ps, period);
    LossesZero(RecentChanges(ps, period));
  }

  /** With a loss in the window, RsiOf is `100 - 100 / (1 + g / l)` for the
      window's summed gains g and losses l (the averaging over `period` cancels). */
  lemma RsiOfWithLoss(recent: seq<real>, period: nat)
    requires period >= 1 && Losses(recent) > 0.0
    ensures RsiOf(recent, period) == 100.0 - 100.0 / (1.0 + Gains(recent) / Losses(recent))
  {
    AveragedRatio(Gains(recent), Losses(recent), period as real);
  }

  lemma RatioVersusOne(g: real, l: real)
    requires g >= 0.0 && l > 0.0
    ensures g / l >= 0.0
    ensures g / l == 0.0 <==> g == 0.0
    ensures g / l > 1.0 <==> g > l
    ensures g / l == 1.0 <==> g == l
  {
    var rs := g / l;
    assert rs * l == g;
    if rs > 1.0 { assert rs * l > 1.0 * l; }
    if rs <= 1.0 { assert rs * l <= 1.0 * l; }
  }

  lemma AveragedRatio(g: real, l: real, n: real)
    requires n > 0.0 && l > 0.0
    ensures (g / n) / (l / n) == g / l
  {
    var a, b := g / n, l / n;
    assert b * n == l && a * n == g;
    assert (a / b) * b == a;
    assert (a / b) * l == (a / b) * b * n;
  }

  /** Once a loss is among the last `period` changes, the RSI is below 100, is
      0 exactly when there is no gain, and sits above or at 50 exactly as the
      gains exceed or equal the losses. */
  lemma RsiWithLoss(ps: seq<real>, period: nat)
    requires period >= 1 && |ps| >= period + 1
    requires Losses(RecentChanges(ps, period)) > 0.0
    ensures var r, g, l := Rsi(ps, period), Gains(RecentChanges(ps, period)), Losses(RecentChanges(ps, period));
      && 0.0 <= r < 100.0
      && (r == 0.0 <==> g == 0.0)
      && (r > 50.0 <==> g > l)
      && (r == 50.0 <==> g == l)
  {
    var recent := RecentChanges(ps, period);
    var g, l := Gains(recent), Losses(recent);
    RsiOfWithLoss(recent, period);
    RatioVersusOne(g, l);
    RsiCurve(g / l);
  }

  /** Only the last `period + 1` prices matter: the RSI of the `n` most recent
      prices, for any `n >= period + 1`, is the RSI of the whole history.
      server.js relies on this when it passes only `ticks.slice(-50)`. */
  lemma RsiRecentWindow(ps: seq<real>, period: nat, n: int)
    requires period >= 1 && n >= period + 1
    ensures Rsi(SliceFrom(ps, -n), period) == Rsi(ps, period)
  {
    var w := SliceFrom(ps, -n);
    if |ps| >= period + 1 {
      RsiOfSuffix(ps, period, |ps| - |w|);
    }
  }

  /** The RSI of a suffix keeping at least `period + 1` prices is the RSI of
      the whole history. */
  lemma RsiOfSuffix(ps: seq<real>, period: nat, off: nat)
    requires period >= 1 && off + period + 1 <= |ps|
    ensures Rsi(ps[off..], period) == Rsi(ps, period)
  {
    RecentChangesOfSuffix(ps, period, off);
  }

  /** Dropping old prices, while at least `period + 1` remain, leaves the
      recent changes as they were. */
  lemma RecentChangesOfSuffix(ps: seq<real>, period: nat, off: nat)
    requires period >= 1 && off + period + 1 <= |ps|
    ensures RecentChanges(ps[off..], period) == RecentChanges(ps, period)
  {
    var q := ps[off..];
    var a, b := RecentChanges(q, period), RecentChanges(ps, period);
    forall j | 0 <= j < period ensures a[j] == b[j] {
      calc {
        a[j];
        Changes(q)[|q| - 1 - period + j];
        q[|q| - period + j] - q[|q| - 1 - period + j];
        ps[|ps| - period + j] - ps[|ps| - 1 - period + j];
        Changes(ps)[|ps| - 1 - period + j];
        b[j];
      }
    }
  }
}
