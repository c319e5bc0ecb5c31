# Deriv trading edge: the tick, indicator and signal pipeline in Dafny

The repository streams price ticks of five synthetic indices (R_10, R_25,
R_50, R_75, R_100) and turns them into trading hints. The pipeline exists
twice:

- **in the browser page** (`app.js`): every tick message goes through
  `handleMessage`. It records the price, pushes the tick onto a history
  capped at 2000 ticks and bumps a per-digit counter. Once five ticks are
  held it recomputes RSI(14) and five EMAs. The page then shows threshold
  signals: rise/fall, even/odd, over/under, matches/differs, the green light,
  the alternation hint, streaks and the readiness of seven bot profiles.
- **in the server** (`server.js`): every tick goes through `processTick`. It
  pushes onto a 5000-tick buffer (creating one for an unknown symbol), stores
  the price and time, and rebuilds the market's statistics record
  (`computeStats`) and signal record (`computeSignals`). It then writes the
  update to the streaming clients, dropping every client whose write fails.
  Two query routes slice and count the buffer.

The model has eight modules, one file each:

| file | module | what it models |
|---|---|---|
| `ticks.dfy` | `Ticks` | ticks, last-digit extraction, JavaScript `slice`, the bounded push, digit counts and histograms |
| `streaks.dfy` | `Streaks` | the backward scans for same-parity and rising streaks, as functions with uniqueness lemmas |
| `indicators.dfy` | `Indicators` | `calcEMA` and `calcRSI` over reals, the trend and setup predicates, and the RSI window lemmas |
| `browser_rules.dfy` | `BrowserRules` | the browser's signal rules, digit percentages, bot conditions and readiness tiers, green light, matches/differs and alternation, as pure functions |
| `browser.dfy` | `Browser` | the page state as a class (`BrowserState`) whose methods update it in place, and the browser's loops proved against the functions above |
| `server.dfy` | `Server` | `computeStats` and `computeSignals` as functions with their loop versions, and the two query routes |
| `server_cache.dfy` | `ServerCache` | the server cache and the client set as a class (`Cache`) whose `ProcessTick` updates it in place |
| `agreement.dfy` | `Agreement` | where the browser and the server give the same signal over the same history, and two inputs on which they do not |

### Modelling choices

- **Numbers.** Prices and every percentage are `real`, so the model says
  nothing about IEEE rounding. A digit is an `int` in 0..9.
- **Quotes.** The model starts from the string `tick.quote.toString()`
  returns. The only thing it requires of that string is that it ends in a
  decimal digit. `parseFloat` is not
  modelled: the parsed price is passed in next to the string.
- **State.** Four of the browser's per-symbol objects (`state.ticks`,
  `state.digitCounts`, `state.rsi`, `state.ema`) always share their five
  keys, so they are one `ByMarket<Book>` field. The fifth, `state.prices`,
  is a separate map: `handleMessage` writes it for any symbol, known or not.
  A ghost field records every tick handled per market since the page loaded
  or the tracker reset it. The class
  invariant ties both histories and the counters to that record:
  - the history is the newest 2000 of those ticks;
  - the counters count all of them, evicted ticks included.
- **Limits.** JavaScript's `slice(-n)` is modelled exactly (`SliceFrom`),
  including `slice(-0)`, which keeps everything. The query routes'
  `parseInt(x) || d` is `ParamOr` on an optional integer: `None` stands for
  NaN.
- **Outside inputs.** The UTC hour and the clock are parameters. The set of
  clients whose write would fail is an input of `ProcessTick`.

Notes on the code:

- Even/odd: the odd count is the window's length minus the even count.
- RSI(14) is 0 when some of the last 14 changes fall and none rise, so
  outside the fallbacks it lies in [0, 100).
- The server's ODD rule is `evenCount20 <= 6` with no waiting gate, while
  the browser's is `odd >= 14` behind a 10-tick gate.

## Model

| member | source | states |
|---|---|---|
| Ticks.MarketOf | app.js:12 | a symbol names a market exactly when it is one of the five keys of the page state |
| Ticks.MarketOfSymbol | app.js:5 | each market's symbol names that market |
| Ticks.LastDigit | app.js:61 | the digit is the one the quote's final character spells |
| Ticks.LastDigitOfQuote | server.js:64 | a quote ending in the character of digit d is well formed and has last digit d |
| Ticks.SliceFrom | server.js:86-88 | `slice(start)` keeps min(-start, n) elements for a negative start and n - min(start, n) otherwise |
| Ticks.SliceFromRecent | server.js:254 | `slice(-n)` for n > 0 is the suffix of the newest min(n, length) elements; `slice(-0)` is everything |
| Ticks.Recent | app.js:64-66 | the newest n elements form a suffix of length min(n, length) |
| Ticks.PushBounded | server.js:67-69 | push then shift past the cap leaves min(length + 1, cap) elements: the newest of the old ones in order, then the new one |
| Ticks.PushBoundedRecent | app.js:64-66 | a bounded push onto the newest `cap` ticks of a history gives the newest `cap` of the history extended by the tick, in arrival order |
| Ticks.Prices | server.js:109 | the price sequence has one entry per tick, the tick's price at the same position |
| Ticks.Digits | server.js:144 | the digit sequence has one entry per tick, the tick's digit at the same position |
| Ticks.PricesOfSlice | server.js:105 | taking prices commutes with slicing |
| Ticks.Count | app.js:131 | a filtered count never exceeds the window |
| Ticks.CountComplements | app.js:131-132 | even plus odd and low plus high count every tick of the window |
| Ticks.CountOfSuffix | app.js:67 | a suffix never holds more ticks of a class than the whole history |
| Ticks.CountOfAppend | app.js:67 | one more tick adds one to its class's count and nothing to the others |
| Ticks.Bump | app.js:67 | `counts[digit]++`: only that digit's counter grows, by one |
| Ticks.DigitCounts | server.js:91-92 | a histogram has ten counters |
| Ticks.DigitCountsCount | server.js:91-95 | counter d is the number of ticks whose digit is d |
| Ticks.DigitCountsOfEmpty | app.js:14 | the histogram of no ticks is ten zeros |
| Ticks.DigitCountsOfAppend | app.js:67 | the histogram of a history extended by a tick is the old one bumped at its digit |
| Ticks.Tally | server.js:91-95 | the `forEach` tally loop computes the histogram |
| Ticks.HistogramSums | server.js:101-102 | the counters sum to the window length, the even slots to the even count and slots 5..9 to the high count |
| Ticks.SlotsOfBump | server.js:101-102 | a bump adds one to the total and to the even or high sum exactly when the digit is even or high |
| Ticks.Pigeonhole | app.js:515 | eleven or more ticks always repeat a digit |
| Streaks.ParityRun | app.js:157-167 | the streak is a suffix whose digits all have the parity, and the tick before it (if any) has the other parity |
| Streaks.ParityRunUnique | server.js:117-125 | any length with those two properties is the streak |
| Streaks.ParityRunsExclusive | server.js:117-125 | the even and odd streaks are never both positive, and on a non-empty history exactly one is |
| Streaks.StreakExample | app.js:157-167 | for digits 2, 4, 6, 1, 3 the odd streak is 2 and the even streak 0 |
| Streaks.RiseRun | app.js:362-367 | the rise streak counts strict rises in a suffix, and the step before it (if any) does not rise |
| Streaks.RiseRunUnique | app.js:362-367 | any count with those two properties is the rise streak |
| Indicators.Smoothing | app.js:77 | k = 2/(period+1) lies in (0, 1] |
| Indicators.Ema | app.js:75-83 | no prices give 0, fewer than `period` give the newest price, exactly `period` give their mean |
| Indicators.CalcEma | app.js:75-83 | the seed-then-recurrence loop (also server.js:211-217) computes Ema |
| Indicators.SumWithin | app.js:78 | a sum of n prices in [lo, hi] lies in [n·lo, n·hi] |
| Indicators.StepWithin | app.js:80 | one recurrence step stays between the bounds of its inputs |
| Indicators.SmoothWithin | app.js:79-81 | the recurrence over prices in [lo, hi] from a seed in [lo, hi] stays in [lo, hi] |
| Indicators.EmaWithin | app.js:75-83 | the EMA of prices in [lo, hi] lies in [lo, hi] |
| Indicators.EmaOfFlat | server.js:211-217 | the EMA of a constant price sequence is that price |
| Indicators.EmaExample | app.js:75-83 | the EMA(5) of 1, 2, 3, 4, 5 is 3 |
| Indicators.EmasOf | app.js:102-108 | the five averages (also server.js:110-114): all 0 with no prices, all the newest price with fewer than five |
| Indicators.EmasWithin | server.js:110-114 | all five averages of a non-empty history lie between its lowest and highest price |
| Indicators.BullTrend | app.js:118 | defines the bull trend, ema20 > ema50 > ema200 (also app.js:410 and server.js:159) |
| Indicators.BearTrend | app.js:119 | defines the bear trend, ema20 < ema50 < ema200 (also app.js:411 and server.js:160) |
| Indicators.TrendsExclusive | server.js:159-160 | the bull and bear trends never hold together |
| Indicators.RiseSetup | app.js:122 | defines the RISE setup: bull trend, 50 < rsi < 70, price above ema50 (also server.js:162) |
| Indicators.FallSetup | app.js:123 | defines the FALL setup: bear trend, 30 < rsi < 50, price below ema50 (also server.js:163) |
| Indicators.SetupsExclusive | app.js:122-123 | the RISE and FALL setups never hold together |
| Indicators.Changes | server.js:221 | one change per neighbouring pair, the later price minus the earlier |
| Indicators.Gains | server.js:223 | the averaged gain is never negative |
| Indicators.Losses | server.js:224 | the averaged loss is never negative |
| Indicators.GainsZero | app.js:90 | the gain is 0 exactly when no change rises |
| Indicators.LossesZero | app.js:91-92 | the loss is 0 exactly when no change falls |
| Indicators.RecentChanges | app.js:89 | `changes.slice(-period)` holds the last `period` changes |
| Indicators.RecentChangesSlice | server.js:222 | that window is JavaScript's `slice(-period)` of the changes |
| Indicators.RecentNeverFall | app.js:88-92 | no recent change is negative exactly when the last period+1 prices never fall |
| Indicators.RsiCurve | app.js:93-94 | 100 - 100/(1+rs) lies in [0, 100), is 0 iff rs = 0, above 50 iff rs > 1 and 50 iff rs = 1 |
| Indicators.RsiOf | server.js:223-226 | the RSI of a change window lies in [0, 100] and is 100 exactly when there is no loss |
| Indicators.Rsi | server.js:219-227 | RSI lies in [0, 100], and is 50 with fewer than period+1 prices |
| Indicators.RsiFullStrength | app.js:85-95 | with enough prices, RSI is 100 exactly when the last period+1 prices never fall |
| Indicators.RsiOfWithLoss | app.js:92-94 | with a loss, RSI is 100 - 100/(1 + gains/losses) |
| Indicators.RsiWithLoss | app.js:85-95 | with a loss, RSI lies in [0, 100); it is 0 iff nothing rose, above 50 iff gains beat losses, 50 iff they tie |
| Indicators.RsiRecentWindow | server.js:105-106 | RSI of the last n ≥ period+1 prices equals RSI of all of them |
| Indicators.RsiOfSuffix | server.js:105-106 | dropping prices older than the last period+1 leaves the RSI unchanged |
| Indicators.RecentChangesOfSuffix | server.js:221-222 | dropping older prices leaves the last `period` changes unchanged |
| BrowserRules.RiseFall | app.js:112-126 | SCANNING iff fewer than 20 ticks; otherwise RISE iff the rise setup, FALL iff the fall setup, FLAT iff neither and 45 ≤ rsi ≤ 55; RISE needs rsi > 50, FALL rsi < 50 |
| BrowserRules.EvenOdd | app.js:128-141 | WAITING with zero counts iff fewer than 10 of the last 20 ticks; otherwise the counts are the window's even and odd counts summing to min(20, length), and EVEN, ODD and NO TRADE hold exactly on their first-match conditions |
| BrowserRules.OverUnder | app.js:143-155 | SCANNING with zero counts iff fewer than 10 ticks; otherwise low and high count the window and sum to min(20, length); OVER and UNDER hold exactly on their tests |
| BrowserRules.DigitPct | app.js:176-180 | a digit's share lies in [0, 100] and is 10 on an empty window |
| BrowserRules.DigitPctsSum | app.js:176-180 | over a non-empty window the ten digit shares add up to 100 |
| BrowserRules.SharesSum | server.js:128 | ten shares c[d]/n·100 of a histogram with total n add up to 100 |
| BrowserRules.Moved | app.js:191-192 | defines the price test: at least `back` prices and the newest minus the `back`-th newest at least the threshold in size (also app.js:224 and app.js:236) |
| BrowserRules.LastTwoEven | app.js:245-246 | defines `slice(-2).every(even)`, true on shorter histories |
| BrowserRules.ClassPct | app.js:218-220 | a class share lies in [0, 100] |
| BrowserRules.BotConditions | app.js:183-257 | five booleans; the fifth is true for every known profile; a pattern profile's first is true; an unknown profile meets nothing; a digit profile's are "share ≤ 9 or ≥ 11.5", "rsi ≤ 32 or ≥ 64", a 0.04 move over 10 prices and hour in 9..16; firebias's are rsi ≠ 50, a 0.02 move over 10 and hour in 8..17; underbeast's "rsi < 45 or > 55", a 0.015 move over 5 and hour in 7..18; evenstreak's "last two even", "rsi < 48 or > 52" and hour in 7..18 |
| BrowserRules.MetCount | app.js:538 | the count of true entries is 0 iff none holds and the length iff all hold |
| BrowserRules.TierOf | app.js:553-555 | READY iff count ≥ 3, CLOSE iff count = 2, MONITORING iff count < 2 |
| BrowserRules.ReadinessFloor | app.js:208-256 | a digit profile meets 1..5 conditions, a pattern profile 2..5 and never shows MONITORING, an unknown one 0 |
| BrowserRules.MetCountOfFive | server.js:187-193 | the met count of five conditions is the sum of their indicators |
| BrowserRules.GreenLightRules | app.js:607-633 | the EVEN light holds exactly on its four conditions, the ODD light exactly on odd dominance, its RSI band and the down cross; the two never hold together |
| BrowserRules.GreenOddWithoutUpperBand | app.js:628-633 | the ODD light can be on while its displayed upper-band condition is off |
| BrowserRules.SeqMax | app.js:517 | `Math.max` is an element that bounds every element |
| BrowserRules.SeqMin | app.js:517 | `Math.min` is an element bounded by every element |
| BrowserRules.Volatility | app.js:516-518 | 0 for at most one price; otherwise the largest difference of two prices: it bounds every difference and equals one |
| BrowserRules.MatchesDiffers | app.js:518-528 | MATCHES iff repeats, neutral RSI and calm; DIFFERS iff volatile and extreme RSI |
| BrowserRules.MatchesDiffersOf | app.js:502-528 | over the last 20 ticks' repeats and the last 10 prices' spread: MATCHES iff repeats, 45 ≤ rsi ≤ 55 and spread ≤ 0.5; DIFFERS iff spread > 0.5 and rsi outside [40, 60] |
| BrowserRules.MatchesOnceElevenTicks | app.js:515-528 | from 11 ticks on, MATCHES depends only on RSI and volatility |
| BrowserRules.AlternationHint | app.js:464-468 | a hint is given iff four ticks are held and the newest six alternate; it is BET ODD iff the newest digit is even |
| BrowserRules.AlternationHintContinuesPattern | app.js:468 | the suggested parity is the parity of the tick before the newest |
| BrowserRules.AlternationHintAsWritten | app.js:464-468 | as written, a hint is given iff four ticks are held and the oldest six of the window alternate |
| BrowserRules.AlternationHintsAgreeOnShortWindows | app.js:465 | the two hints agree on windows of at most six ticks |
| BrowserRules.AlternationCheckSeesOldest | app.js:464-468 | a full window on which the written test suggests ODD while the newest six do not alternate |
| Browser.ByMarket.With | app.js:63 | `obj[symbol] = v` changes that market's entry and no other |
| Browser.Every | app.js:12-16 | every market starts with the same entry |
| Browser.AfterTick | app.js:64-69 | the bounded push onto the history, the digit's counter bumped, and RSI and EMAs of the new history once it holds five ticks (kept otherwise) |
| Browser.BrowserState.constructor | app.js:9-22 | empty histories, zero counters, RSI 50, zero EMAs, no prices, tracker on R_75, invariant established |
| Browser.BrowserState.HandleMessage | app.js:56-72 | a tick records its price; it is handled iff its symbol is one of the five; the handled market's entry becomes AfterTick of the old one and nothing else changes; the invariant is kept |
| Browser.BrowserState.PushTick | app.js:64-69 | one market's entry becomes AfterTick of itself, the invariant is kept |
| Browser.BrowserState.SelectTrackerMarket | app.js:719-721 | the tracker switches to the chosen market |
| Browser.BrowserState.ResetTracker | app.js:725-730 | exactly the tracked market's history and counters are cleared; RSI, EMAs and other markets stay |
| Browser.PushOnto | app.js:64-69 | the statements of a handled tick compute AfterTick |
| Browser.ShiftPush | app.js:64-66 | push-then-shift computes PushBounded at 2000 |
| Browser.UpdateIndicators | app.js:97-109 | below five prices the old values stay, else RSI(14) and the five EMAs of the history |
| Browser.ConsistentAfterReset | app.js:725-730 | clearing one market keeps every market consistent with its record |
| Browser.ConsistentAfterTick | app.js:63-69 | a handled tick keeps every market consistent with its extended record |
| Browser.MarketStateAfterTick | app.js:64-67 | one market's entry stays consistent with its record after a tick |
| Browser.HistoryAfterTick | app.js:64-66 | the history stays the newest 2000 of the ticks handled |
| Browser.CountsAfterTick | app.js:67 | the counters stay the histogram of every tick handled |
| Browser.CounterCoversHistory | app.js:66-67 | the counters sum to all ticks since the reset, which exceeds the history's length once ticks are evicted; each counter is at least its digit's count in the history |
| Browser.CollectChanges | app.js:87-88 | the loop collects the price changes |
| Browser.CalcRsi | app.js:85-95 | the loop version computes Rsi |
| Browser.GetStreak | app.js:157-167 | "even" and "odd" give the parity streaks, any other kind gives 0 |
| Browser.RiseStreak | app.js:362-367 | the loop computes the rise streak of the prices |
| Browser.DigitFrequency | app.js:169-174 | the histogram of `slice(-window)`, summing to min(window, length) |
| Browser.HasRepeats | app.js:503-515 | the frequency map has an entry ≥ 2 exactly when some digit repeats |
| Browser.IsAlternating | app.js:464-467 | the loop decides whether neighbouring ticks always differ in parity |
| Browser.AlternationCheckAsWritten | app.js:464-468 | the written loop and hint compute the as-written hint over the last 20 ticks |
| Browser.AlternationCheck | app.js:464-468 | the corrected loop computes the corrected hint over the last 20 ticks |
| Server.PctComplement | server.js:136-139 | a share and the rest's share add up to 100 |
| Server.NonZero | server.js:97-98 | `n || 1` is positive and n itself when n > 0 |
| Server.PriceChange10 | server.js:131-132 | the ten-tick move is non-negative and 0 below ten ticks |
| Server.Shares | server.js:128 | ten shares, the d-th being counts[d]/total·100 |
| Server.ShareSplit | server.js:136-139 | the even/odd and over/under pairs are the share and the rest's share, adding up to 100 |
| Server.Assemble | server.js:134-145 | the record keeps both histograms, has ten digit shares, complementary pair shares, RSI in [0, 100], the tick count and min(20, length) last digits |
| Server.Stats | server.js:84-145 | the same bounds for the record of a buffer |
| Server.StatsCounts | server.js:91-95 | counts100 and counts1000 count each digit of the last 100 and 1000 ticks and sum to min(100, n) and min(1000, n) |
| Server.StatsShares | server.js:100-102 | the even and over-5 shares are those of the even and high digits of the last 100 over `length || 1` |
| Server.StatsOfEmpty | server.js:97-98 | an empty buffer gives 0/100 pair shares, zero digit shares, RSI 50, no streak, no move, no digits |
| Server.StatsDigitPctsSum | server.js:128 | over a non-empty buffer the ten digit shares add up to 100 |
| Server.StatsRsi | server.js:105-106 | the stored RSI of the last 50 prices is RSI(14) of the whole buffer |
| Server.StatsRsiField | server.js:105-106 | the stored RSI is RSI(14) of the prices of the last 50 ticks |
| Server.RsiOfLast50 | server.js:105-106 | RSI(14) of the last 50 ticks' prices is RSI(14) of all the prices |
| Server.StatsStreaks | server.js:117-125 | the streaks are the maximal all-even and all-odd suffixes; on a non-empty buffer exactly one is positive |
| Server.StreakCounters | server.js:117-125 | the two backward loops compute the two streaks |
| Server.ComputeStats | server.js:84-149 | the statements compute the statistics record of the buffer |
| Server.DigitsIn | server.js:167 | a filtered digit count never exceeds the digits |
| Server.DigitsInDigits | server.js:167 | counting the stored digits is counting the ticks they came from |
| Server.RiseFallOf | server.js:159-164 | RISE iff the rise setup, FALL iff the fall setup, FLAT iff neither and 45 ≤ rsi ≤ 55 |
| Server.EvenOddOf | server.js:166-172 | EVEN and ODD hold exactly on their tests; STREAK_ODD needs a 5-even streak, STREAK_EVEN a 5-odd one; NEUTRAL has neither |
| Server.OverUnderOf | server.js:174-178 | OVER and UNDER hold exactly on their tests |
| Server.ScoreConditions | server.js:185-194 | five conditions, the last constant true |
| Server.BotScore | server.js:185-194 | the score lies in [1, 5] and is 5 exactly when all conditions hold |
| Server.SignalsOf | server.js:151-209 | greenlight iff RISE or FALL, the trend label follows the EMA order, every bot score lies in [1, 5] |
| Server.EvenOddOfBuffer | server.js:167-172 | over a buffer, EVEN/ODD count the even digits of its last 20 ticks, and STREAK_ODD/STREAK_EVEN mean the newest five digits are even/odd |
| Server.OverUnderOfBuffer | server.js:175-178 | over a buffer, OVER/UNDER count the low digits of its last 20 ticks |
| Server.AsciiUpper | server.js:252 | ASCII lower-case letters are raised, everything else kept, length kept |
| Server.AsciiUpperIdempotent | server.js:252 | upper-casing is idempotent and leaves market symbols alone |
| Server.ParamOr | server.js:253 | a missing, non-numeric or zero parameter gives the default |
| Server.Window | server.js:254 | an unknown market gives no ticks, a positive limit the newest `limit` ticks |
| Server.TicksRoute | server.js:251-256 | the upper-cased market, no ticks if unknown, else the newest `limit` (default 100), and count = their number |
| Server.FirstMin | server.js:275 | `indexOf(Math.min(...))`: the first index of a smallest count |
| Server.FirstMax | server.js:276 | `indexOf(Math.max(...))`: the first index of a largest count |
| Server.DigitAnalysisRoute | server.js:267-285 | histogram of the window (default 1000), total `length || 1`, shares, even and over-5 shares, and cold/hot as the first min/max |
| Server.DigitAnalysisWindow | server.js:269-272 | with a positive window over a known market the counts sum to min(window, length) |
| Server.DigitAnalysisPctsSum | server.js:273-274 | over a non-empty window the ten percentages add up to 100 |
| ServerCache.InitialBuffers | server.js:21 | the cache starts with an empty buffer for each of the five markets |
| ServerCache.BufferOf | server.js:67 | the market's buffer, or a new empty one for an unknown symbol, as `cache.ticks[mkt] \|\| []` gives it |
| ServerCache.Pushed | server.js:67-69 | the pushed buffer holds 1..5000 ticks and ends with the new tick |
| ServerCache.PushedKeepsNewest | server.js:67-69 | the buffer stays the newest 5000 ticks in arrival order, and an unknown market starts with just the tick |
| ServerCache.Cache.constructor | server.js:20-32 | empty buffers, empty maps, no clients, invariant established |
| ServerCache.Cache.ProcessTick | server.js:61-82 | the market's buffer becomes the bounded push, price and time are stored; its statistics and signals become those of the new buffer; failing clients are dropped; no other market changes; the 5000-tick bound is kept |
| ServerCache.Cache.Quote | server.js:71-72 | the price and update time of the market are stored |
| ServerCache.Cache.StoreStats | server.js:134-145 | the market's statistics become those of its buffer |
| ServerCache.Cache.StoreSignals | server.js:196-208 | the market's signals become those of its statistics and price |
| ServerCache.Cache.Record | server.js:67-69 | push, create, shift: the buffer becomes Pushed and the bound is kept |
| ServerCache.Cache.Broadcast | server.js:79-81 | exactly the clients whose write fails are removed |
| ServerCache.Cache.Subscribe | server.js:237 | the stream route adds the client |
| ServerCache.Cache.Close | server.js:243 | closing removes the client |
| Agreement.RiseFallAgrees | server.js:158-164 | from 20 ticks on, browser and server give the same rise/fall label |
| Agreement.EvenOddAgrees | server.js:166-172 | from 10 ticks on, both say EVEN together; from 20 also ODD |
| Agreement.OverUnderAgrees | server.js:174-178 | from 10 ticks on, both say OVER together; from 20 also UNDER |
| Agreement.ShortHistoryDisagrees | app.js:129-130 | under 10 ticks with at most 6 even, the browser waits while the server says ODD |
| Agreement.DigitBotAgrees | server.js:185-194 | over a non-empty history the browser's digit-bot count equals the server's bot score |
| Agreement.SameConditions | app.js:201-215 | a record agreeing on share, RSI and move gives the browser's five conditions |
| Agreement.StatsDigitPct | server.js:128 | the server's digit share is the browser's `getDigitPct(d, 1000)` on a non-empty history |
| Agreement.StatsShareOfDigit | server.js:128 | on a non-empty buffer the server's share of a digit is its count among the last 1000 ticks over their number |
| Agreement.StatsMove | server.js:183 | the server's move test is the browser's price test |
| Agreement.MoveOfPrices | app.js:191-192 | the ten-tick move reaches 0.04 exactly when the browser's price test passes |
| Agreement.EmptyHistoryDisagrees | app.js:178 | the two formulas differ on an empty history: the server formula meets a digit bot's first condition and the browser's does not; the server never computes statistics of an empty buffer, since `processTick` pushes first |

## Left out

- Number-to-string formatting of the quote. `toString` on a numeric quote
  drops trailing zeros: 1234.50 becomes "1234.5", whose last digit is 5,
  not 0. The model takes the string as given.
- The feed connection, reconnect timers, `sendWS`, `subscribeAll` and
  `connectToDerivWS`: these are I/O and timers.
- Express routing, SSE headers, `res.json`, and the JSON payloads:
  - the stream's initial snapshot;
  - the broadcast payload;
  - `/api/prices`, `/api/stats/:market` and `/api/signals`, which only
    serialise cache fields.
- `res.write` is not modelled. A client is a `nat` identity, and a failing
  write is membership of an input set.
- Every DOM update: `updateUI`, the page updaters' element writes, the signal
  matrix, charts, streak dots and alert texts, the method-detection texts of
  the even/odd page, navigation, the clock and the market buttons. Only the
  rules inside those writes are modelled.
- `updateTracker` (the tracker window's display statistics) and the tracker
  window setting: they are display only. The tracker's market choice and its
  reset are modelled.
- The journal and `localStorage`, which are persistence.
- The Pine Script and DBot XML generators, which are string templates.
- Floating point and `toFixed`. Prices and shares are reals. The server
  stores `rsi.toFixed(1)` as a string, while `Signals.rsi` is the real RSI.
- `Date.now()` and `getUTCHours()`, which are parameters.
- `parseFloat` and `parseInt` on arbitrary text, and NaN:
  - a quote must end in a digit;
  - the parsed price is an input.
- `toUpperCase` beyond ASCII letters.
- Symbols that are names of `Object.prototype` members (such as
  `constructor`). For these, `obj[name]` finds an inherited value. The model
  treats them like any other unknown name.
- In `handleMessage`, a symbol outside the five markets throws once the price
  is stored. The model stops at the same point and returns `handled = false`.
- The `if (!s) return;` guard of `computeSignals` (server.js:153) cannot
  trigger, since `computeStats` stores the record just before.
- Indicators.Ema: `period` must be at least 1; every caller passes 5, 10,
  20, 50 or 200.
- Ticks.PushBounded: the buffer passed in must be within its cap, which both
  classes' invariants keep.
- Agreement.RiseFallAgrees: it is stated over one common history. The browser
  keeps 2000 ticks and the server 5000, so their EMAs part once more than 2000
  ticks have arrived. EvenOddAgrees, OverUnderAgrees and DigitBotAgrees are
  stated the same way.

## Findings

| source | as written | input that shows it | evidently intended | confidence | as-written member | corrected member |
|---|---|---|---|---|---|---|
| app.js:464-468 | the alternation loop compares ticks 0..5 of the 20-tick window, its oldest six, while the suggested parity follows the newest tick | a full window whose oldest six digits alternate (1, 2, 1, 2, 1, 2) and whose newest fourteen are all 2: ODD is suggested though the newest ticks do not alternate (BrowserRules.AlternationCheckSeesOldest) | test the newest six ticks, the pattern the hint continues | not executed | BrowserRules.AlternationHintAsWritten | BrowserRules.AlternationHint |
