/** Server: what server.js computes for a market after every tick (the
    statistics record of `computeStats` and the rules of `computeSignals`),
    and the slicing and counting behind its query routes. */
module Server {
  import opened Ticks
  import opened Indicators
  import opened Streaks
  import BrowserRules

  /** The server keeps the 5000 most recent ticks of a market. */
  const ServerCap: nat := 5000

  /** `(part / total) * 100`. */
  function Pct(part: int, total: nat): real
    requires total > 0
  {
    part as real / total as real * 100.0
  }

  /** A share and the share of the rest add up to 100. */
  lemma PctComplement(part: int, total: nat)
    requires total > 0
    ensures Pct(part, total) + Pct(total - part, total) == 100.0
  {
    var t := total as real;
    assert part as real / t + (t - part as real) / t == t / t;
  }

  /** `n || 1` on a length: 1 for an empty window. */
  function NonZero(n: nat): (r: nat)
    ensures r > 0
    ensures n > 0 ==> r == n
  {
    if n == 0 then 1 else n
  }

  // ----- computeStats -----

  /** The record `computeStats` stores for a market. */
  datatype DigitStats = DigitStats(
    counts100: seq<nat>, counts1000: seq<nat>, digitPcts: seq<real>,
    evenPct: real, oddPct: real, over5Pct: real, under5Pct: real,
    rsi: real, ema: Emas,
    evenStreak: nat, oddStreak: nat,
    priceChange10: real, totalTicks: nat, last20Digits: seq<Digit>)

  /** `|p[n-1] - p[n-10]|` over ten or more ticks, else 0. */
  function PriceChange10(ts: seq<Tick>): (c: real)
    ensures c >= 0.0
    ensures |ts| < 10 ==> c == 0.0
  {
    if |ts| >= 10 then Abs(ts[|ts| - 1].price - ts[|ts| - 10].price) else 0.0
  }

  /** The ten digit shares of a histogram over `total`. */
  function Shares(counts: seq<nat>, total: nat): (pcts: seq<real>)
    requires |counts| == 10 && total > 0
    ensures |pcts| == 10
    ensures forall d :: 0 <= d < 10 ==> pcts[d] == Pct(counts[d], total)
  {
    seq(10, d requires 0 <= d < 10 => Pct(counts[d], total))
  }

  /** A share and the share of the rest, `part / total * 100` and
      `(total - part) / total * 100`: they add up to 100. */
  function ShareSplit(part: int, total: nat): (r: (real, real))
    requires total > 0
    ensures r.0 == Pct(part, total) && r.1 == Pct(total - part, total)
    ensures r.0 + r.1 == 100.0
  {
    PctComplement(part, total);
    (Pct(part, total), Pct(total - part, total))
  }

  /** The record built from a buffer, its two histograms, its averages and
      its streaks, as the last statement of `computeStats` builds it. */
  function Assemble(ts: seq<Tick>, counts100: seq<nat>, counts1000: seq<nat>, ema: Emas,
                    evenStreak: nat, oddStreak: nat): (s: DigitStats)
    requires |counts100| == 10 && |counts1000| == 10
    ensures s.counts100 == counts100 && s.counts1000 == counts1000 && |s.digitPcts| == 10
    ensures s.evenPct + s.oddPct == 100.0 && s.over5Pct + s.under5Pct == 100.0
    ensures 0.0 <= s.rsi <= 100.0
    ensures s.totalTicks == |ts| && |s.last20Digits| == Min(20, |ts|)
  {
    var last100, last1000 := SliceFrom(ts, -100), SliceFrom(ts, -1000);
    var total100, total1000 := NonZero(|last100|), NonZero(|last1000|);
    var eo := ShareSplit(EvenSlots(counts100), total100);
    var ou := ShareSplit(HighSlots(counts100), total100);
    DigitStats(
      counts100, counts1000, Shares(counts1000, total1000), eo.0, eo.1, ou.0, ou.1,
      Rsi(Prices(SliceFrom(ts, -50)), 14), ema, evenStreak, oddStreak,
      PriceChange10(ts), |ts|, Digits(SliceFrom(ts, -20)))
  }

  /** The statistics of a market's buffer `ts`: histograms of the last 100
      and 1000 ticks, parity and over-5 shares of the last 100 (over at
      least 1), RSI(14) of the last 50 prices, the five averages of all of
      them, the two parity streaks, the ten-tick move and the last 20 digits. */
  function Stats(ts: seq<Tick>): (s: DigitStats)
    ensures |s.counts100| == 10 && |s.counts1000| == 10 && |s.digitPcts| == 10
    ensures s.evenPct + s.oddPct == 100.0 && s.over5Pct + s.under5Pct == 100.0
    ensures 0.0 <= s.rsi <= 100.0
    ensures s.totalTicks == |ts| && |s.last20Digits| == Min(20, |ts|)
  {
    Assemble(ts, DigitCounts(SliceFrom(ts, -100)), DigitCounts(SliceFrom(ts, -1000)),
             EmasOf(Prices(ts)), ParityRun(ts, true), ParityRun(ts, false))
  }

  /** `counts100` and `counts1000` count the digits of the last 100 and 1000
      ticks, and so sum to min(100, length) and min(1000, length). */
  lemma StatsCounts(ts: seq<Tick>)
    ensures var s := Stats(ts);
      && Total(s.counts100) == Min(100, |ts|)
      && Total(s.counts1000) == Min(1000, |ts|)
      && (forall d :: 0 <= d < 10 ==> s.counts100[d] == Count(SliceFrom(ts, -100), Is(d)))
      && (forall d :: 0 <= d < 10 ==> s.counts1000[d] == Count(SliceFrom(ts, -1000), Is(d)))
  {
    HistogramSums(SliceFrom(ts, -100));
    HistogramSums(SliceFrom(ts, -1000));
    DigitCountsCount(SliceFrom(ts, -100));
    DigitCountsCount(SliceFrom(ts, -1000));
  }

  /** The even and over-5 shares are the shares of even and high digits
      among the last 100 ticks. */
  lemma StatsShares(ts: seq<Tick>)
    ensures var s, w := Stats(ts), SliceFrom(ts, -100);
      && s.evenPct == Pct(Count(w, EvenDigit), NonZero(|w|))
      && s.over5Pct == Pct(Count(w, High), NonZero(|w|))
  {
    HistogramSums(SliceFrom(ts, -100));
  }

  /** An empty buffer gives the fallback record: every share over a total of
      1, so even and over-5 at 0, odd and under-5 at 100, digit shares at 0,
      RSI 50, no streak and no move. */
  lemma StatsOfEmpty()
    ensures var s := Stats([]);
      && s.evenPct == 0.0 && s.oddPct == 100.0
      && s.over5Pct == 0.0 && s.under5Pct == 100.0
      && (forall d :: 0 <= d < 10 ==> s.counts100[d] == 0 && s.digitPcts[d] == 0.0)
      && s.rsi == 50.0 && s.evenStreak == 0 && s.oddStreak == 0
      && s.priceChange10 == 0.0 && s.totalTicks == 0 && s.last20Digits == []
  {
    DigitCountsOfEmpty();
  }

  /** Over a non-empty buffer the ten digit shares add up to 100. */
  lemma StatsDigitPctsSum(ts: seq<Tick>)
    requires ts != []
    ensures var p := Stats(ts).digitPcts;
      p[0] + p[1] + p[2] + p[3] + p[4] + p[5] + p[6] + p[7] + p[8] + p[9] == 100.0
  {
    var w := SliceFrom(ts, -1000);
    HistogramSums(w);
    BrowserRules.SharesSum(DigitCounts(w), |w|);
  }

  /** Passing only the last 50 prices costs nothing: the stored RSI is
      RSI(14) of the whole buffer. */
  lemma StatsRsi(ts: seq<Tick>)
    ensures Stats(ts).rsi == Rsi(Prices(ts), 14)
  {
    StatsRsiField(ts);
    RsiOfLast50(ts);
  }

  /** The stored RSI is RSI(14) of the prices of the last 50 ticks. */
  lemma StatsRsiField(ts: seq<Tick>)
    ensures Stats(ts).rsi == Rsi(Prices(SliceFrom(ts, -50)), 14)
  {
  }

  /** RSI(14) of the prices of the last 50 ticks is RSI(14) of all prices. */
  lemma RsiOfLast50(ts: seq<Tick>)
    ensures Rsi(Prices(SliceFrom(ts, -50)), 14) == Rsi(Prices(ts), 14)
  {
    var ps := Prices(ts);
    var recent := Prices(SliceFrom(ts, -50));
    assert recent == SliceFrom(ps, -50) by {
      PricesOfSlice(ts, -50);
    }
    assert Rsi(SliceFrom(ps, -50), 14) == Rsi(ps, 14) by {
      RsiRecentWindow(ps, 14, 50);
    }
  }

  /** The streaks are the longest all-even and all-odd suffixes; over a
      non-empty buffer exactly one of them is positive. */
  lemma StatsStreaks(ts: seq<Tick>)
    ensures var s := Stats(ts);
      && (forall i :: |ts| - s.evenStreak <= i < |ts| ==> IsEven(ts[i].digit))
      && (forall i :: |ts| - s.oddStreak <= i < |ts| ==> !IsEven(ts[i].digit))
      && (s.evenStreak < |ts| ==> !IsEven(ts[|ts| - 1 - s.evenStreak].digit))
      && (s.oddStreak < |ts| ==> IsEven(ts[|ts| - 1 - s.oddStreak].digit))
      && (ts != [] ==> (s.evenStreak > 0 <==> s.oddStreak == 0))
  {
    ParityRunsExclusive(ts);
  }

  /** The two streak loops of `computeStats`, each scanning backward from the
      newest tick until the parity changes. */
  method StreakCounters(ts: seq<Tick>) returns (evenStreak: nat, oddStreak: nat)
    ensures evenStreak == ParityRun(ts, true)
    ensures oddStreak == ParityRun(ts, false)
  {
    evenStreak := 0;
    var i := |ts| - 1;
    while i >= 0 && ts[i].digit % 2 == 0
      invariant -1 <= i < |ts| && evenStreak == |ts| - 1 - i
      invariant forall j :: i < j < |ts| ==> IsEven(ts[j].digit)
    {
      evenStreak := evenStreak + 1;
      i := i - 1;
    }
    ParityRunUnique(ts, true, evenStreak);
    oddStreak := 0;
    i := |ts| - 1;
    while i >= 0 && ts[i].digit % 2 != 0
      invariant -1 <= i < |ts| && oddStreak == |ts| - 1 - i
      invariant forall j :: i < j < |ts| ==> !IsEven(ts[j].digit)
    {
      oddStreak := oddStreak + 1;
      i := i - 1;
    }
    ParityRunUnique(ts, false, oddStreak);
  }

  /** The statements of `computeStats`: two tallies, the shares, the RSI of
      the last 50 prices, five EMA loops and the streak loops. */
  method ComputeStats(ts: seq<Tick>) returns (s: DigitStats)
    ensures s == Stats(ts)
  {
    var counts100 := Tally(SliceFrom(ts, -100));
    var counts1000 := Tally(SliceFrom(ts, -1000));
    var allPrices := Prices(ts);
    var e5 := CalcEma(allPrices, 5);
    var e10 := CalcEma(allPrices, 10);
    var e20 := CalcEma(allPrices, 20);
    var e50 := CalcEma(allPrices, 50);
    var e200 := CalcEma(allPrices, 200);
    var evenStreak, oddStreak := StreakCounters(ts);
    s := Assemble(ts, counts100, counts1000, Emas(e5, e10, e20, e50, e200), evenStreak, oddStreak);
  }

  // ----- computeSignals -----

  datatype RfSignal = Rise | Fall | Flat | Neutral
  datatype EoSignal = Even | Odd | StreakOdd | StreakEven | Neutral
  datatype OuSignal = Over | Under | Neutral
  /** 'BULL', 'BEAR' or 'FLAT'. */
  datatype Trend = Bull | Bear | Sideways

  datatype BotScores = BotScores(nuclear9: nat, zerokiller: nat, mirror8: nat, onestreak: nat)

  /** The record `computeSignals` stores for a market. */
  datatype Signals = Signals(
    rf: RfSignal, eo: EoSignal, ou: OuSignal, trend: Trend, rsi: real,
    evenStreak: nat, oddStreak: nat, botScores: BotScores, greenlight: bool)

  /** `digits.filter(d => <class>).length`. */
  function DigitsIn(ds: seq<Digit>, c: DigitClass): (n: nat)
    ensures n <= |ds|
  {
    if ds == [] then 0
    else DigitsIn(ds[..|ds| - 1], c) + (if InClass(ds[|ds| - 1], c) then 1 else 0)
  }

  /** Counting the stored digits is counting the ticks they came from. */
  lemma {:induction false} DigitsInDigits(ts: seq<Tick>, c: DigitClass)
    ensures DigitsIn(Digits(ts), c) == Count(ts, c)
  {
    if ts != [] {
      DigitsInDigits(ts[..|ts| - 1], c);
      assert Digits(ts)[..|ts| - 1] == Digits(ts[..|ts| - 1]);
    }
  }

  /** RISE, FALL, FLAT, NEUTRAL, first match; the setups exclude each other,
      so RISE and FALL hold exactly when their own setup does. */
  function RiseFallOf(rsi: real, e: Emas, price: real): (r: RfSignal)
    ensures r == Rise <==> RiseSetup(rsi, e, price)
    ensures r == Fall <==> FallSetup(rsi, e, price)
    ensures r == Flat <==> !RiseSetup(rsi, e, price) && !FallSetup(rsi, e, price) && 45.0 <= rsi <= 55.0
  {
    SetupsExclusive(rsi, e, price);
    if RiseSetup(rsi, e, price) then Rise
    else if FallSetup(rsi, e, price) then Fall
    else if rsi >= 45.0 && rsi <= 55.0 then Flat
    else RfSignal.Neutral
  }

  /** EVEN (14 even of the last 20, RSI in [40, 55]), ODD (6 even or fewer,
      RSI in [45, 65]), STREAK_ODD (five even in a row), STREAK_EVEN (five
      odd in a row), NEUTRAL, first match. The EVEN and ODD counts exclude
      each other, so the first two labels hold exactly on their own test. */
  function EvenOddOf(evenCount20: nat, rsi: real, evenStreak: nat, oddStreak: nat): (r: EoSignal)
    ensures r == Even <==> evenCount20 >= 14 && 40.0 <= rsi <= 55.0
    ensures r == Odd <==> evenCount20 <= 6 && 45.0 <= rsi <= 65.0
    ensures r == StreakOdd ==> evenStreak >= 5
    ensures r == StreakEven ==> oddStreak >= 5 && evenStreak < 5
    ensures r == EoSignal.Neutral ==> evenStreak < 5 && oddStreak < 5
  {
    if evenCount20 >= 14 && rsi >= 40.0 && rsi <= 55.0 then Even
    else if evenCount20 <= 6 && rsi >= 45.0 && rsi <= 65.0 then Odd
    else if evenStreak >= 5 then StreakOdd
    else if oddStreak >= 5 then StreakEven
    else EoSignal.Neutral
  }

  /** OVER (14 low digits of the last 20, RSI above 55), UNDER (6 low or
      fewer, RSI below 45), NEUTRAL; the two tests exclude each other. */
  function OverUnderOf(lowCount20: nat, rsi: real): (r: OuSignal)
    ensures r == Over <==> lowCount20 >= 14 && rsi > 55.0
    ensures r == Under <==> lowCount20 <= 6 && rsi < 45.0
  {
    if lowCount20 >= 14 && rsi > 55.0 then Over
    else if lowCount20 <= 6 && rsi < 45.0 then Under
    else OuSignal.Neutral
  }

  /** The five conditions of `botScore(digit)`: the digit's share of the last
      1000 ticks far from 10%, RSI at an extreme, a ten-tick move of 0.04,
      the 9:00-17:00 UTC window, and the constant `true`. */
  function ScoreConditions(s: DigitStats, digit: Digit, utcHour: int): (c: seq<bool>)
    requires |s.digitPcts| == 10
    ensures |c| == 5 && c[4]
  {
    var pct := s.digitPcts[digit];
    [pct <= 9.0 || pct >= 11.5, s.rsi <= 32.0 || s.rsi >= 64.0,
     s.priceChange10 >= 0.04, utcHour >= 9 && utcHour < 17, true]
  }

  /** `botScore(digit)`: how many of the five conditions hold; the constant
      last one keeps the score at 1 or more. */
  function BotScore(s: DigitStats, digit: Digit, utcHour: int): (n: nat)
    requires |s.digitPcts| == 10
    ensures 1 <= n <= 5
    ensures n == 5 <==> forall i :: 0 <= i < 5 ==> ScoreConditions(s, digit, utcHour)[i]
  {
    BrowserRules.MetCount(ScoreConditions(s, digit, utcHour))
  }

  /** `computeSignals` over a market's statistics, its current price and the
      UTC hour. */
  function SignalsOf(s: DigitStats, price: real, utcHour: int): (sig: Signals)
    requires |s.digitPcts| == 10
    ensures sig.greenlight <==> sig.rf == Rise || sig.rf == Fall
    ensures sig.trend == Bull <==> BullTrend(s.ema)
    ensures sig.trend == Bear <==> BearTrend(s.ema)
    ensures 1 <= sig.botScores.nuclear9 <= 5 && 1 <= sig.botScores.zerokiller <= 5
    ensures 1 <= sig.botScores.mirror8 <= 5 && 1 <= sig.botScores.onestreak <= 5
  {
    var rf := RiseFallOf(s.rsi, s.ema, price);
    var eo := EvenOddOf(DigitsIn(s.last20Digits, EvenDigit), s.rsi, s.evenStreak, s.oddStreak);
    var ou := OverUnderOf(DigitsIn(s.last20Digits, Low), s.rsi);
    var trend := if BullTrend(s.ema) then Bull else if BearTrend(s.ema) then Bear else Sideways;
    var scores := BotScores(BotScore(s, 9, utcHour), BotScore(s, 0, utcHour),
                            BotScore(s, 8, utcHour), BotScore(s, 1, utcHour));
    Signals(rf, eo, ou, trend, s.rsi, s.evenStreak, s.oddStreak, scores, rf == Rise || rf == Fall)
  }

  /** On the statistics of a buffer, the even/odd label reads the buffer
      itself: EVEN and ODD count the even digits of the last 20 ticks, and
      STREAK_ODD (STREAK_EVEN) means the newest five digits are even (odd). */
  lemma EvenOddOfBuffer(ts: seq<Tick>, price: real, utcHour: int)
    ensures var s := Stats(ts);
      var eo, even20 := SignalsOf(s, price, utcHour).eo, Count(SliceFrom(ts, -20), EvenDigit);
      && (eo == Even <==> even20 >= 14 && 40.0 <= s.rsi <= 55.0)
      && (eo == Odd <==> even20 <= 6 && 45.0 <= s.rsi <= 65.0)
      && (eo == StreakOdd ==> |ts| >= 5 && forall i :: |ts| - 5 <= i < |ts| ==> IsEven(ts[i].digit))
      && (eo == StreakEven ==> |ts| >= 5 && forall i :: |ts| - 5 <= i < |ts| ==> !IsEven(ts[i].digit))
  {
    DigitsInDigits(SliceFrom(ts, -20), EvenDigit);
  }

  /** Likewise OVER and UNDER count the low digits of the last 20 ticks. */
  lemma OverUnderOfBuffer(ts: seq<Tick>, price: real, utcHour: int)
    ensures var s := Stats(ts);
      var ou, low20 := SignalsOf(s, price, utcHour).ou, Count(SliceFrom(ts, -20), Low);
      && (ou == Over <==> low20 >= 14 && s.rsi > 55.0)
      && (ou == Under <==> low20 <= 6 && s.rsi < 45.0)
  {
    DigitsInDigits(SliceFrom(ts, -20), Low);
  }

  // ----- Query routes -----

  /** `toUpperCase` on ASCII letters; every other character is kept. */
  function AsciiUpper(s: string): (r: string)
    ensures |r| == |s|
    ensures forall i :: 0 <= i < |s| ==> r[i] == if 'a' <= s[i] <= 'z' then (s[i] as int - 32) as char else s[i]
  {
    seq(|s|, i requires 0 <= i < |s| => if 'a' <= s[i] <= 'z' then (s[i] as int - 32) as char else s[i])
  }

  /** Upper-casing twice is upper-casing once, and market symbols are
      already upper case, so `r_75` and `R_75` name the same market. */
  lemma AsciiUpperIdempotent(s: string, m: Market)
    ensures AsciiUpper(AsciiUpper(s)) == AsciiUpper(s)
    ensures AsciiUpper(SymbolOf(m)) == SymbolOf(m)
  {
  }

  /** `parseInt(param) || d`: the default when the parameter is missing, not
      a number (`None`) or zero. */
  function ParamOr(param: Option<int>, d: int): (n: int)
    ensures param.Some? && param.value != 0 ==> n == param.value
    ensures param.None? || param.value == 0 ==> n == d
  {
    if param.None? || param.value == 0 then d else param.value
  }

  /** `cache.ticks[mkt]?.slice(-n) || []`. */
  function Window(buffers: map<string, seq<Tick>>, mkt: string, n: int): (w: seq<Tick>)
    ensures mkt !in buffers ==> w == []
    ensures mkt in buffers && n > 0 ==> w == Recent(buffers[mkt], n)
  {
    if mkt in buffers then
      SliceFromRecent(buffers[mkt], n);
      SliceFrom(buffers[mkt], -n)
    else []
  }

  datatype TicksReply = TicksReply(market: string, ticks: seq<Tick>, count: nat)

  /** `/api/ticks/:market`: the most recent `limit` ticks (100 by default)
      of the upper-cased market, none for an unknown one, and their number. */
  function TicksRoute(buffers: map<string, seq<Tick>>, market: string, limit: Option<int>): (r: TicksReply)
    ensures r.market == AsciiUpper(market) && r.count == |r.ticks|
    ensures r.market !in buffers ==> r.ticks == []
    ensures r.market in buffers && ParamOr(limit, 100) > 0 ==>
      r.ticks == Recent(buffers[r.market], ParamOr(limit, 100))
      && r.count == Min(ParamOr(limit, 100), |buffers[r.market]|)
  {
    var mkt := AsciiUpper(market);
    var ticks := Window(buffers, mkt, ParamOr(limit, 100));
    TicksReply(mkt, ticks, |ticks|)
  }

  /** The first index of a smallest count: `counts.indexOf(Math.min(...counts))`. */
  function FirstMin(c: seq<nat>): (i: nat)
    requires |c| > 0
    ensures i < |c|
    ensures forall j :: 0 <= j < |c| ==> c[i] <= c[j]
    ensures forall j :: 0 <= j < i ==> c[j] > c[i]
  {
    if |c| == 1 then 0
    else
      var k := FirstMin(c[..|c| - 1]);
      if c[|c| - 1] < c[k] then |c| - 1 else k
  }

  /** The first index of a largest count: `counts.indexOf(Math.max(...counts))`. */
  function FirstMax(c: seq<nat>): (i: nat)
    requires |c| > 0
    ensures i < |c|
    ensures forall j :: 0 <= j < |c| ==> c[i] >= c[j]
    ensures forall j :: 0 <= j < i ==> c[j] < c[i]
  {
    if |c| == 1 then 0
    else
      var k := FirstMax(c[..|c| - 1]);
      if c[|c| - 1] > c[k] then |c| - 1 else k
  }

  datatype DigitAnalysis = DigitAnalysis(
    market: string, window: int, total: nat, counts: seq<nat>, percentages: seq<real>,
    coldDigit: nat, hotDigit: nat, evenPct: real, over5Pct: real)

  /** `/api/digit-analysis/:market`: the digit histogram of the most recent
      `window` ticks (1000 by default), its shares over the window's length
      (at least 1), the first coldest and hottest digits, and the even and
      over-5 shares. */
  method DigitAnalysisRoute(buffers: map<string, seq<Tick>>, market: string, window: Option<int>)
    returns (r: DigitAnalysis)
    ensures var w := Window(buffers, AsciiUpper(market), ParamOr(window, 1000));
      && r.market == AsciiUpper(market) && r.window == ParamOr(window, 1000)
      && r.counts == DigitCounts(w) && Total(r.counts) == |w|
      && r.total == NonZero(|w|)
      && |r.percentages| == 10
      && (forall d :: 0 <= d < 10 ==> r.percentages[d] == Pct(Count(w, Is(d)), r.total))
      && r.evenPct == Pct(Count(w, EvenDigit), r.total)
      && r.over5Pct == Pct(Count(w, High), r.total)
    ensures r.coldDigit < 10 && (forall d :: 0 <= d < 10 ==> r.counts[r.coldDigit] <= r.counts[d])
    ensures forall d :: 0 <= d < r.coldDigit ==> r.counts[d] > r.counts[r.coldDigit]
    ensures r.hotDigit < 10 && (forall d :: 0 <= d < 10 ==> r.counts[r.hotDigit] >= r.counts[d])
    ensures forall d :: 0 <= d < r.hotDigit ==> r.counts[d] < r.counts[r.hotDigit]
  {
    var mkt := AsciiUpper(market);
    var n := ParamOr(window, 1000);
    var w := Window(buffers, mkt, n);
    var counts := Tally(w);
    HistogramSums(w);
    DigitCountsCount(w);
    var total := NonZero(|w|);
    r := DigitAnalysis(mkt, n, total, counts, Shares(counts, total),
                       FirstMin(counts), FirstMax(counts),
                       Pct(EvenSlots(counts), total), Pct(HighSlots(counts), total));
  }

  /** With a positive window over a known market, the histogram covers
      min(window, length) ticks. */
  lemma DigitAnalysisWindow(buffers: map<string, seq<Tick>>, mkt: string, n: int)
    requires mkt in buffers && n > 0
    ensures Total(DigitCounts(Window(buffers, mkt, n))) == Min(n, |buffers[mkt]|)
  {
    HistogramSums(Window(buffers, mkt, n));
  }

  /** Over a non-empty window the ten percentages of the digit analysis add
      up to 100. */
  lemma DigitAnalysisPctsSum(w: seq<Tick>)
    requires w != []
    ensures var n := NonZero(|w|);
      Pct(Count(w, Is(0)), n) + Pct(Count(w, Is(1)), n) + Pct(Count(w, Is(2)), n)
      + Pct(Count(w, Is(3)), n) + Pct(Count(w, Is(4)), n) + Pct(Count(w, Is(5)), n)
      + Pct(Count(w, Is(6)), n) + Pct(Count(w, Is(7)), n) + Pct(Count(w, Is(8)), n)
      + Pct(Count(w, Is(9)), n) == 100.0
  {
    HistogramSums(w);
    DigitCountsCount(w);
    BrowserRules.SharesSum(DigitCounts(w), |w|);
  }
}
