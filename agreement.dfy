/** Agreement: where the browser (app.js) and the server (server.js) compute
    the same trading signal from the same tick history, and where they part.
    The history `ts` is the one both hold: the browser's RSI and averages of
    it are `Rsi(Prices(ts), 14)` and `EmasOf(Prices(ts))` once it holds five
    ticks, the server's come from `Stats(ts)`. */
module Agreement {
  import opened Ticks
  import opened Indicators
  import opened BrowserRules
  import opened Server

  /** Once the browser stops scanning (20 ticks), its rise/fall label is the
      server's, label for label. */
  lemma RiseFallAgrees(ts: seq<Tick>, price: real, utcHour: int)
    requires |ts| >= 20
    ensures var b := RiseFall(|ts|, Rsi(Prices(ts), 14), EmasOf(Prices(ts)), price);
      var r := SignalsOf(Stats(ts), price, utcHour).rf;
      && (b == RiseFallSignal.Rise <==> r == RfSignal.Rise)
      && (b == RiseFallSignal.Fall <==> r == RfSignal.Fall)
      && (b == RiseFallSignal.Flat <==> r == RfSignal.Flat)
      && (b == RiseFallSignal.Neutral <==> r == RfSignal.Neutral)
  {
    StatsRsi(ts);
  }

  /** From ten ticks on both say EVEN exactly together; from twenty on (a
      full window) also ODD. */
  lemma EvenOddAgrees(ts: seq<Tick>, price: real, utcHour: int)
    requires |ts| >= 10
    ensures var eo, sig := EvenOdd(ts, Rsi(Prices(ts), 14)).signal, SignalsOf(Stats(ts), price, utcHour);
      && (eo == EvenOddSignal.Even <==> sig.eo == EoSignal.Even)
      && (|ts| >= 20 ==> (eo == EvenOddSignal.Odd <==> sig.eo == EoSignal.Odd))
  {
    StatsRsi(ts);
    EvenOddOfBuffer(ts, price, utcHour);
    CountComplements(SliceFrom(ts, -20));
  }

  /** From ten ticks on both say OVER exactly together; from twenty on also
      UNDER. */
  lemma OverUnderAgrees(ts: seq<Tick>, price: real, utcHour: int)
    requires |ts| >= 10
    ensures var ou, sig := OverUnder(ts, Rsi(Prices(ts), 14)).signal, SignalsOf(Stats(ts), price, utcHour);
      && (ou == OverUnderSignal.Over <==> sig.ou == OuSignal.Over)
      && (|ts| >= 20 ==> (ou == OverUnderSignal.Under <==> sig.ou == OuSignal.Under))
  {
    StatsRsi(ts);
    OverUnderOfBuffer(ts, price, utcHour);
    CountComplements(SliceFrom(ts, -20));
  }

  /** With fewer than ten ticks, at most six of them even, the browser is
      still WAITING while the server already says ODD: its counts run over
      however many ticks there are, and its RSI is the neutral 50. */
  lemma ShortHistoryDisagrees(ts: seq<Tick>, rsi: real, price: real, utcHour: int)
    requires |ts| < 10 && Count(ts, EvenDigit) <= 6
    ensures EvenOdd(ts, rsi).signal == EvenOddSignal.Waiting
    ensures SignalsOf(Stats(ts), price, utcHour).eo == EoSignal.Odd
  {
    SliceFromRecent(ts, 20);
    StatsRsi(ts);
    EvenOddOfBuffer(ts, price, utcHour);
  }

  /** The browser's five conditions of a digit bot over a non-empty history
      are the server's `botScore` conditions for that digit, so the two
      readiness counts are equal. */
  lemma DigitBotAgrees(botType: string, ts: seq<Tick>, utcHour: int)
    requires botType in DigitBots && ts != []
    ensures BotScore(Stats(ts), DigitBots[botType], utcHour)
         == MetCount(BotConditions(botType, Rsi(Prices(ts), 14), ts, utcHour))
  {
    StatsDigitPct(ts, DigitBots[botType]);
    StatsRsi(ts);
    StatsMove(ts);
    SameConditions(Stats(ts), botType, ts, utcHour);
  }

  /** A statistics record that agrees with the browser on the digit's share,
      the RSI and the ten-tick move gives the browser's five conditions. */
  lemma SameConditions(s: DigitStats, botType: string, ts: seq<Tick>, utcHour: int)
    requires botType in DigitBots && |s.digitPcts| == 10
    requires s.digitPcts[DigitBots[botType]] == DigitPct(ts, DigitBots[botType], 1000)
    requires s.priceChange10 >= 0.04 <==> Moved(Prices(ts), 10, 0.04)
    ensures ScoreConditions(s, DigitBots[botType], utcHour) == BotConditions(botType, s.rsi, ts, utcHour)
  {
  }

  /** The server's share of digit `d` is the browser's `getDigitPct(d, 1000)`
      on a non-empty history. */
  lemma StatsDigitPct(ts: seq<Tick>, d: Digit)
    requires ts != []
    ensures Stats(ts).digitPcts[d] == DigitPct(ts, d, 1000)
  {
    var w := SliceFrom(ts, -1000);
    StatsShareOfDigit(ts, d);
    DigitCountsCount(w);
    assert DigitCounts(w)[d] == Count(w, Is(d));
  }

  /** The server's share of digit `d` is its count among the last 1000 ticks
      over their number. */
  lemma StatsShareOfDigit(ts: seq<Tick>, d: Digit)
    requires ts != []
    ensures var w := SliceFrom(ts, -1000);
      |w| > 0 && Stats(ts).digitPcts[d] == Pct(DigitCounts(w)[d], |w|)
  {
  }

  /** The server's ten-tick move reaches 0.04 exactly when the browser's
      price test does. */
  lemma StatsMove(ts: seq<Tick>)
    ensures Stats(ts).priceChange10 >= 0.04 <==> Moved(Prices(ts), 10, 0.04)
  {
    assert Stats(ts).priceChange10 == PriceChange10(ts);
    MoveOfPrices(ts);
  }

  /** `priceChange10` is the browser's ten-tick move of the prices. */
  lemma MoveOfPrices(ts: seq<Tick>)
    ensures PriceChange10(ts) >= 0.04 <==> Moved(Prices(ts), 10, 0.04)
  {
    var ps := Prices(ts);
    if |ts| >= 10 {
      assert ps[|ps| - 1] == ts[|ts| - 1].price && ps[|ps| - 10] == ts[|ts| - 10].price;
    }
  }

  /** The two formulas part on an empty history: the server formula's share
      of every digit is 0, far from 10%, so its first condition is met, while
      the browser's fallback share of exactly 10% does not meet it. The
      server itself never reaches this case, since `processTick` pushes the
      tick before it computes the statistics. */
  lemma EmptyHistoryDisagrees(botType: string, rsi: real, utcHour: int)
    requires botType in DigitBots
    ensures ScoreConditions(Stats([]), DigitBots[botType], utcHour)[0]
    ensures !BotConditions(botType, rsi, [], utcHour)[0]
  {
    StatsOfEmpty();
  }
}
