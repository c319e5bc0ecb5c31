/** BrowserRules: the browser's (app.js) threshold rules as pure functions of
    the indicator values, the current price and the tick history. The page
    updaters of app.js evaluate the same rules in between DOM writes; here they
    are separated from the writes. */
module BrowserRules {
  import opened Ticks
  import opened Indicators
  import opened Streaks

  // ----- Rise/Fall (getRiseFallSignal) -----

  datatype RiseFallSignal = Rise | Fall | Flat | Neutral | Scanning

  /** First match of RISE, FALL, FLAT, NEUTRAL once 20 ticks are held.
      Since the RISE and FALL setups exclude each other, each label has a
      condition that does not depend on the order of the tests. */
  function RiseFall(tickCount: nat, rsi: real, e: Emas, price: real): (s: RiseFallSignal)
    ensures s == RiseFallSignal.Scanning <==> tickCount < 20
    ensures s == Rise <==> tickCount >= 20 && RiseSetup(rsi, e, price)
    ensures s == Fall <==> tickCount >= 20 && FallSetup(rsi, e, price)
    ensures s == Flat <==>
      tickCount >= 20 && !RiseSetup(rsi, e, price) && !FallSetup(rsi, e, price) && 45.0 <= rsi <= 55.0
    ensures s == Rise ==> rsi > 50.0
    ensures s == Fall ==> rsi < 50.0
  {
    if tickCount < 20 then RiseFallSignal.Scanning
    else if RiseSetup(rsi, e, price) then Rise
    else if FallSetup(rsi, e, price) then Fall
    else if rsi >= 45.0 && rsi <= 55.0 then Flat
    else RiseFallSignal.Neutral
  }

  // ----- Even/Odd (getEvenOddSignal) -----

  datatype EvenOddSignal = Even | Odd | NoTrade | Neutral | Waiting

  datatype EvenOddReading = EvenOddReading(signal: EvenOddSignal, even: nat, odd: nat)

  /** Over the last 20 ticks: WAITING with zero counts below 10 of them, else
      EVEN, ODD, NO TRADE, NEUTRAL, first match. The window holds at most 20
      ticks, so 14 even and 14 odd cannot both occur: EVEN and ODD have
      order-free conditions, and NO TRADE means neither parity dominates. */
  function EvenOdd(ticks: seq<Tick>, rsi: real): (r: EvenOddReading)
    ensures var w := SliceFrom(ticks, -20);
      && (r.signal == EvenOddSignal.Waiting <==> |w| < 10)
      && (|w| < 10 ==> r.even == 0 && r.odd == 0)
      && (|w| >= 10 ==> r.even == Count(w, EvenDigit) && r.odd == Count(w, OddDigit))
      && (|w| >= 10 ==> r.even + r.odd == Min(20, |ticks|))
      && (r.signal == Even <==> |w| >= 10 && r.even >= 14 && 40.0 <= rsi <= 55.0)
      && (r.signal == Odd <==> |w| >= 10 && r.odd >= 14 && 45.0 <= rsi <= 65.0)
      && (r.signal == NoTrade <==> |w| >= 10 && r.even < 14 && r.odd < 14 && 45.0 <= rsi <= 55.0)
  {
    var w := SliceFrom(ticks, -20);
    if |w| < 10 then EvenOddReading(EvenOddSignal.Waiting, 0, 0)
    else
      var even := Count(w, EvenDigit);
      var odd := |w| - even;
      CountComplements(w);
      var signal :=
        if even >= 14 && rsi >= 40.0 && rsi <= 55.0 then Even
        else if odd >= 14 && rsi >= 45.0 && rsi <= 65.0 then Odd
        else if rsi >= 45.0 && rsi <= 55.0 then NoTrade
        else EvenOddSignal.Neutral;
      EvenOddReading(signal, even, odd)
  }

  // ----- Over/Under (getOverUnderSignal) -----

  datatype OverUnderSignal = Over | Under | Neutral | Scanning

  datatype OverUnderReading = OverUnderReading(signal: OverUnderSignal, low: nat, high: nat)

  /** Over the last 20 ticks: SCANNING with zero counts below 10 of them,
      else OVER (14 low digits, RSI above 55), UNDER (14 high digits, RSI
      below 45), NEUTRAL. */
  function OverUnder(ticks: seq<Tick>, rsi: real): (r: OverUnderReading)
    ensures var w := SliceFrom(ticks, -20);
      && (r.signal == OverUnderSignal.Scanning <==> |w| < 10)
      && (|w| < 10 ==> r.low == 0 && r.high == 0)
      && (|w| >= 10 ==> r.low == Count(w, Low) && r.high == Count(w, High))
      && (|w| >= 10 ==> r.low + r.high == Min(20, |ticks|))
      && (r.signal == Over <==> |w| >= 10 && r.low >= 14 && rsi > 55.0)
      && (r.signal == Under <==> |w| >= 10 && r.high >= 14 && rsi < 45.0)
  {
    var w := SliceFrom(ticks, -20);
    if |w| < 10 then OverUnderReading(OverUnderSignal.Scanning, 0, 0)
    else
      var low := Count(w, Low);
      var high := |w| - low;
      CountComplements(w);
      var signal :=
        if low >= 14 && rsi > 55.0 then Over
        else if high >= 14 && rsi < 45.0 then Under
        else OverUnderSignal.Neutral;
      OverUnderReading(signal, low, high)
  }

  // ----- Digit statistics (getDigitPct) -----

  /** Share of `digit` among the last `window` ticks, in percent; 10 (an even
      share) when there is no tick. */
  function DigitPct(ticks: seq<Tick>, digit: int, window: int): (pct: real)
    ensures 0.0 <= pct <= 100.0
    ensures SliceFrom(ticks, -window) == [] ==> pct == 10.0
  {
    var w := SliceFrom(ticks, -window);
    if |w| == 0 then 10.0
    else
      PercentOf(Count(w, Is(digit)), |w|);
      Count(w, Is(digit)) as real / |w| as real * 100.0
  }

  lemma PercentOf(part: nat, whole: nat)
    requires 0 < whole && part <= whole
    ensures 0.0 <= part as real / whole as real * 100.0 <= 100.0
  {
    var q := part as real / whole as real;
    assert q * whole as real == part as real;
  }

  /** Over a non-empty window the ten digit shares add up to 100. */
  lemma DigitPctsSum(ticks: seq<Tick>, window: int)
    requires SliceFrom(ticks, -window) != []
    ensures DigitPct(ticks, 0, window) + DigitPct(ticks, 1, window) + DigitPct(ticks, 2, window)
          + DigitPct(ticks, 3, window) + DigitPct(ticks, 4, window) + DigitPct(ticks, 5, window)
          + DigitPct(ticks, 6, window) + DigitPct(ticks, 7, window) + DigitPct(ticks, 8, window)
          + DigitPct(ticks, 9, window) == 100.0
  {
    var w := SliceFrom(ticks, -window);
    HistogramSums(w);
    DigitCountsCount(w);
    var c := DigitCounts(w);
    SharesSum(c, |w|);
  }

  /** Ten shares `c[d] / n * 100` of a histogram with total `n` add up to 100. */
  lemma SharesSum(c: seq<nat>, n: nat)
    requires |c| == 10 && n > 0 && Total(c) == n
    ensures c[0] as real / n as real * 100.0 + c[1] as real / n as real * 100.0
          + c[2] as real / n as real * 100.0 + c[3] as real / n as real * 100.0
          + c[4] as real / n as real * 100.0 + c[5] as real / n as real * 100.0
          + c[6] as real / n as real * 100.0 + c[7] as real / n as real * 100.0
          + c[8] as real / n as real * 100.0 + c[9] as real / n as real * 100.0 == 100.0
  {
    SharesOfReals(c[0] as real, c[1] as real, c[2] as real, c[3] as real, c[4] as real,
                  c[5] as real, c[6] as real, c[7] as real, c[8] as real, c[9] as real, n as real);
  }

  /** Ten parts of a positive total: their shares add up to 100. */
  lemma SharesOfReals(x0: real, x1: real, x2: real, x3: real, x4: real,
                      x5: real, x6: real, x7: real, x8: real, x9: real, n: real)
    requires n > 0.0 && x0 + x1 + x2 + x3 + x4 + x5 + x6 + x7 + x8 + x9 == n
    ensures x0 / n * 100.0 + x1 / n * 100.0 + x2 / n * 100.0 + x3 / n * 100.0 + x4 / n * 100.0
          + x5 / n * 100.0 + x6 / n * 100.0 + x7 / n * 100.0 + x8 / n * 100.0 + x9 / n * 100.0 == 100.0
  {
    SharesAdd(x0, x1, n);
    SharesAdd(x0 + x1, x2, n);
    SharesAdd(x0 + x1 + x2, x3, n);
    SharesAdd(x0 + x1 + x2 + x3, x4, n);
    SharesAdd(x0 + x1 + x2 + x3 + x4, x5, n);
    SharesAdd(x0 + x1 + x2 + x3 + x4 + x5, x6, n);
    SharesAdd(x0 + x1 + x2 + x3 + x4 + x5 + x6, x7, n);
    SharesAdd(x0 + x1 + x2 + x3 + x4 + x5 + x6 + x7, x8, n);
    SharesAdd(x0 + x1 + x2 + x3 + x4 + x5 + x6 + x7 + x8, x9, n);
    assert n / n == 1.0;
  }

  /** The shares of two parts of one total add up to the share of both. */
  lemma SharesAdd(a: real, b: real, n: real)
    requires n > 0.0
    ensures a / n * 100.0 + b / n * 100.0 == (a + b) / n * 100.0
  {
  }

  // ----- Bot readiness (checkBotConditions, updateDBotPage) -----

  /** The four profiles keyed to one digit, and that digit. */
  const DigitBots: map<string, Digit> :=
    map["nuclear9" := 9, "zerokiller" := 0, "mirror8" := 8, "onestreak" := 1]

  /** The three profiles with their own condition lists. */
  const PatternBots: set<string> := {"firebias", "underbeast", "evenstreak"}

  /** `|p[n-1] - p[n-back]| >= threshold`, false with fewer than `back` prices. */
  predicate Moved(ps: seq<real>, back: nat, threshold: real)
    requires back >= 1
  {
    |ps| >= back && Abs(ps[|ps| - 1] - ps[|ps| - back]) >= threshold
  }

  /** Share of the ticks of class `c` in percent, 50 for an empty window. */
  function ClassPct(w: seq<Tick>, c: DigitClass): (pct: real)
    ensures 0.0 <= pct <= 100.0
  {
    if |w| == 0 then 50.0
    else
      PercentOf(Count(w, c), |w|);
      Count(w, c) as real / |w| as real * 100.0
  }

  /** `ticks.slice(-2).every(t => t.digit % 2 === 0)`: true on fewer ticks too. */
  predicate LastTwoEven(ticks: seq<Tick>) {
    forall i :: |ticks| - Min(2, |ticks|) <= i < |ticks| ==> IsEven(ticks[i].digit)
  }

  /** The five conditions of one bot profile over market R_75's RSI, ticks and
      the current UTC hour. Every known profile's fifth condition is the
      constant placeholder `true`; the first condition of the three pattern
      profiles is a tautology; an unknown profile meets nothing. */
  function BotConditions(botType: string, rsi: real, ticks: seq<Tick>, utcHour: int): (c: seq<bool>)
    ensures |c| == 5
    ensures botType in DigitBots || botType in PatternBots ==> c[4]
    ensures botType in PatternBots ==> c[0]
    ensures botType !in DigitBots && botType !in PatternBots ==> forall i :: 0 <= i < 5 ==> !c[i]
    ensures botType in DigitBots ==>
      (c[0] <==> var pct := DigitPct(ticks, DigitBots[botType], 1000); pct <= 9.0 || pct >= 11.5)
    ensures botType in DigitBots ==>
      && (c[1] <==> rsi <= 32.0 || rsi >= 64.0)
      && (c[2] <==> Moved(Prices(ticks), 10, 0.04))
      && (c[3] <==> 9 <= utcHour < 17)
    ensures botType == "firebias" ==>
      && (c[1] <==> rsi != 50.0)
      && (c[2] <==> Moved(Prices(ticks), 10, 0.02))
      && (c[3] <==> 8 <= utcHour < 18)
    ensures botType == "underbeast" ==>
      && (c[1] <==> rsi < 45.0 || rsi > 55.0)
      && (c[2] <==> Moved(Prices(ticks), 5, 0.015))
      && (c[3] <==> 7 <= utcHour < 19)
    ensures botType == "evenstreak" ==>
      && (c[1] <==> LastTwoEven(ticks))
      && (c[2] <==> rsi < 48.0 || rsi > 52.0)
      && (c[3] <==> 7 <= utcHour < 19)
  {
    var prices := Prices(ticks);
    var priceMoving := Moved(prices, 10, 0.04);
    if botType in DigitBots then
      var pct := DigitPct(ticks, DigitBots[botType], 1000);
      var isCold := pct <= 9.0;
      var isHot := pct >= 11.5;
      var rsiOk := rsi <= 32.0 || rsi >= 64.0;
      [isCold || isHot, rsiOk, priceMoving, utcHour >= 9 && utcHour < 17, true]
    else if botType == "firebias" then
      var highPct := ClassPct(SliceFrom(ticks, -100), High);
      [highPct >= 50.0 || highPct <= 50.0, rsi > 50.0 || rsi < 50.0,
       Moved(prices, 10, 0.02), utcHour >= 8 && utcHour < 18, true]
    else if botType == "underbeast" then
      var lowPct := ClassPct(SliceFrom(ticks, -1000), Low);
      [lowPct >= 50.0 || lowPct <= 50.0, rsi < 45.0 || rsi > 55.0,
       Moved(prices, 5, 0.015), utcHour >= 7 && utcHour < 19, true]
    else if botType == "evenstreak" then
      var evenPct := ClassPct(SliceFrom(ticks, -1000), EvenDigit);
      [evenPct >= 50.0 || evenPct < 50.0, LastTwoEven(ticks),
       rsi < 48.0 || rsi > 52.0, utcHour >= 7 && utcHour < 19, true]
    else
      [false, false, false, false, false]
  }

  /** `conditions.filter(Boolean).length`. */
  function MetCount(conds: seq<bool>): (n: nat)
    ensures n <= |conds|
    ensures n == 0 <==> forall i :: 0 <= i < |conds| ==> !conds[i]
    ensures n == |conds| <==> forall i :: 0 <= i < |conds| ==> conds[i]
  {
    if conds == [] then 0
    else MetCount(conds[..|conds| - 1]) + (if conds[|conds| - 1] then 1 else 0)
  }

  datatype Tier = Ready | Close | Monitoring

  /** The readiness tier of a met-condition count, as `updateDBotPage` shows it. */
  function TierOf(metCount: nat): (t: Tier)
    ensures t == Ready <==> metCount >= 3
    ensures t == Close <==> metCount == 2
    ensures t == Monitoring <==> metCount < 2
  {
    if metCount >= 3 then Ready else if metCount >= 2 then Close else Monitoring
  }

  /** The placeholder and the tautology put a floor under every profile: a
      digit profile meets at least one condition, a pattern profile at least
      two and so never shows MONITORING; an unknown profile meets none. */
  lemma ReadinessFloor(botType: string, rsi: real, ticks: seq<Tick>, utcHour: int)
    ensures var n := MetCount(BotConditions(botType, rsi, ticks, utcHour));
      && (botType in DigitBots ==> 1 <= n <= 5)
      && (botType in PatternBots ==> 2 <= n <= 5 && TierOf(n) != Monitoring)
      && (botType !in DigitBots && botType !in PatternBots ==> n == 0 && TierOf(n) == Monitoring)
  {
    var c := BotConditions(botType, rsi, ticks, utcHour);
    MetCountOfFive(c);
  }

  lemma MetCountOfFive(c: seq<bool>)
    requires |c| == 5
    ensures MetCount(c) == (if c[0] then 1 else 0) + (if c[1] then 1 else 0) + (if c[2] then 1 else 0)
                         + (if c[3] then 1 else 0) + (if c[4] then 1 else 0)
  {
    assert c[..4][..3] == c[..3];
    assert c[..3][..2] == c[..2];
    assert c[..2][..1] == c[..1];
    assert c[..1][..0] == [];
  }

  // ----- Green light (updateGreenLightPage) -----

  /** The conditions shown on the green-light page and the two verdicts. */
  datatype GreenLight = GreenLight(
    dominance: bool, rsiBand: bool, nearLowerBand: bool, emaCrossUp: bool, greenEven: bool,
    oddDominance: bool, oddRsiBand: bool, nearUpperBand: bool, emaCrossDown: bool, greenOdd: bool)

  /** The EVEN light needs all four of its conditions; the ODD light needs
      odd dominance, its RSI band and the downward EMA cross (the upper-band
      condition is shown but not part of it). The two lights exclude each
      other: one needs ema5 above ema10, the other below. */
  function GreenLightRules(ticks: seq<Tick>, rsi: real, e: Emas, price: real): (g: GreenLight)
    ensures var even := Count(SliceFrom(ticks, -20), EvenDigit);
      && (g.greenEven <==> even >= 13 && 40.0 <= rsi <= 55.0 && price <= e.e20 * 1.001 && e.e5 > e.e10)
      && (g.greenOdd <==> even <= 7 && 45.0 <= rsi <= 65.0 && e.e5 < e.e10)
    ensures g.greenEven <==> g.dominance && g.rsiBand && g.nearLowerBand && g.emaCrossUp
    ensures g.greenOdd <==> g.oddDominance && g.oddRsiBand && g.emaCrossDown
    ensures !(g.greenEven && g.greenOdd)
  {
    var even := Count(SliceFrom(ticks, -20), EvenDigit);
    var cond1 := even >= 13;
    var cond2 := rsi >= 40.0 && rsi <= 55.0;
    var cond3 := price <= e.e20 * 1.001;
    var cond4 := e.e5 > e.e10;
    GreenLight(cond1, cond2, cond3, cond4, cond1 && cond2 && cond3 && cond4,
               even <= 7, rsi >= 45.0 && rsi <= 65.0, price >= e.e20 * 0.999, e.e5 < e.e10,
               even <= 7 && (rsi >= 45.0 && rsi <= 65.0) && e.e5 < e.e10)
  }

  /** The ODD light can be on while its displayed upper-band condition is off. */
  lemma GreenOddWithoutUpperBand()
    ensures var g := GreenLightRules([], 50.0, Emas(1.0, 2.0, 100.0, 0.0, 0.0), 0.0);
      g.greenOdd && !g.nearUpperBand
  {
    var none: seq<Tick> := [];
    assert SliceFrom(none, -20) == [];
  }

  // ----- Matches/Differs (updateMDPage) -----

  datatype DigitMatchSignal = Matches | Differs | Analyzing

  function SeqMax(ps: seq<real>): (m: real)
    requires |ps| > 0
    ensures forall i :: 0 <= i < |ps| ==> ps[i] <= m
    ensures exists i :: 0 <= i < |ps| && ps[i] == m
  {
    if |ps| == 1 then ps[0]
    else
      var m := SeqMax(ps[..|ps| - 1]);
      if ps[|ps| - 1] > m then ps[|ps| - 1] else m
  }

  function SeqMin(ps: seq<real>): (m: real)
    requires |ps| > 0
    ensures forall i :: 0 <= i < |ps| ==> m <= ps[i]
    ensures exists i :: 0 <= i < |ps| && ps[i] == m
  {
    if |ps| == 1 then ps[0]
    else
      var m := SeqMin(ps[..|ps| - 1]);
      if ps[|ps| - 1] < m then ps[|ps| - 1] else m
  }

  /** `Math.max(...vol) - Math.min(...vol)` for more than one price, else 0:
      the largest difference between two of the prices. */
  function Volatility(ps: seq<real>): (v: real)
    ensures v >= 0.0
    ensures forall i, j :: 0 <= i < |ps| && 0 <= j < |ps| ==> ps[i] - ps[j] <= v
    ensures |ps| <= 1 ==> v == 0.0
    ensures |ps| > 1 ==> exists i, j :: 0 <= i < |ps| && 0 <= j < |ps| && ps[i] - ps[j] == v
  {
    if |ps| > 1 then SeqMax(ps) - SeqMin(ps) else 0.0
  }

  /** MATCHES needs repeats, a neutral RSI and a calm market; DIFFERS needs a
      volatile market and an extreme RSI; calm and volatile exclude each
      other, so the order of the two tests does not matter. */
  function MatchesDiffers(hasRepeats: bool, rsi: real, volatility: real): (s: DigitMatchSignal)
    ensures s == Matches <==> hasRepeats && 45.0 <= rsi <= 55.0 && volatility <= 0.5
    ensures s == Differs <==> volatility > 0.5 && (rsi > 60.0 || rsi < 40.0)
  {
    var isHighVol := volatility > 0.5;
    if hasRepeats && rsi >= 45.0 && rsi <= 55.0 && !isHighVol then Matches
    else if isHighVol && (rsi > 60.0 || rsi < 40.0) then Differs
    else Analyzing
  }

  /** The signal of the matches/differs page for R_75's ticks. */
  function MatchesDiffersOf(ticks: seq<Tick>, rsi: real): (s: DigitMatchSignal)
    ensures var repeats, vol := HasRepeat(SliceFrom(ticks, -20)), Volatility(Prices(SliceFrom(ticks, -10)));
      && (s == Matches <==> repeats && 45.0 <= rsi <= 55.0 && vol <= 0.5)
      && (s == Differs <==> vol > 0.5 && (rsi > 60.0 || rsi < 40.0))
  {
    MatchesDiffers(HasRepeat(SliceFrom(ticks, -20)), rsi, Volatility(Prices(SliceFrom(ticks, -10))))
  }

  /** Eleven of the last 20 ticks always repeat a digit, so from 11 ticks on
      the repeat test is always passed and only RSI and volatility decide. */
  lemma MatchesOnceElevenTicks(ticks: seq<Tick>, rsi: real)
    requires |ticks| >= 11
    ensures MatchesDiffersOf(ticks, rsi) == Matches <==>
      45.0 <= rsi <= 55.0 && Volatility(Prices(SliceFrom(ticks, -10))) <= 0.5
  {
    Pigeonhole(SliceFrom(ticks, -20));
  }

  // ----- Alternation (updateEvenOddPage) -----

  /** Neighbouring ticks always differ in parity. */
  predicate Alternates(w: seq<Tick>) {
    forall i :: 0 < i < |w| ==> w[i].digit % 2 != w[i - 1].digit % 2
  }

  /** The newest six ticks of a window (all of them when there are fewer). */
  function NewestSix(w: seq<Tick>): seq<Tick> {
    Recent(w, 6)
  }

  datatype ParityHint = BetOdd | BetEven | NoAlternation

  /** The alternation hint over the 20-tick window: once four ticks are held
      and the newest six alternate, bet on the parity after the newest tick's. */
  function AlternationHint(w: seq<Tick>): (h: ParityHint)
    ensures h != NoAlternation <==> |w| >= 4 && Alternates(NewestSix(w))
    ensures h == BetOdd <==> h != NoAlternation && IsEven(w[|w| - 1].digit)
  {
    if Alternates(NewestSix(w)) && |w| >= 4 then
      (if w[|w| - 1].digit % 2 == 0 then BetOdd else BetEven)
    else NoAlternation
  }

  /** The hint continues the pattern: the suggested parity is that of the
      tick before the newest. */
  lemma AlternationHintContinuesPattern(w: seq<Tick>)
    ensures AlternationHint(w) == BetOdd ==> !IsEven(w[|w| - 2].digit)
    ensures AlternationHint(w) == BetEven ==> IsEven(w[|w| - 2].digit)
  {
    if AlternationHint(w) != NoAlternation {
      var n := NewestSix(w);
      assert n[|n| - 1] == w[|w| - 1] && n[|n| - 2] == w[|w| - 2];
    }
  }

  /** The hint as app.js writes it: the alternation test runs over the
      OLDEST six ticks of the window, while the suggested parity follows the
      newest tick. */
  function AlternationHintAsWritten(w: seq<Tick>): (h: ParityHint)
    ensures h != NoAlternation <==> |w| >= 4 && Alternates(w[..Min(|w|, 6)])
    ensures h == BetOdd <==> h != NoAlternation && IsEven(w[|w| - 1].digit)
  {
    if Alternates(w[..Min(|w|, 6)]) && |w| >= 4 then
      (if w[|w| - 1].digit % 2 == 0 then BetOdd else BetEven)
    else NoAlternation
  }

  /** The two hints agree while the window holds at most six ticks. */
  lemma AlternationHintsAgreeOnShortWindows(w: seq<Tick>)
    requires |w| <= 6
    ensures AlternationHintAsWritten(w) == AlternationHint(w)
  {
    assert w[..Min(|w|, 6)] == w == NewestSix(w);
  }

  /** A full window whose oldest six ticks alternate while the newest
      fourteen are all even: app.js suggests ODD on an alternation that the
      newest ticks do not show. */
  lemma AlternationCheckSeesOldest()
    ensures var w := seq(20, i requires 0 <= i < 20 => Tick(0.0, if i < 6 && i % 2 == 0 then 1 else 2, 0));
      && AlternationHintAsWritten(w) == BetOdd && AlternationHint(w) == NoAlternation
      && IsEven(w[18].digit)
  {
    var w := seq(20, i requires 0 <= i < 20 => Tick(0.0, if i < 6 && i % 2 == 0 then 1 else 2, 0));
    var n := NewestSix(w);
    assert n[1] == w[15] && n[0] == w[14];
  }
}
