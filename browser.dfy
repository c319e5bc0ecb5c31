/** Browser: the page state of app.js (its per-market tick history, digit
    counters and indicators) as a class whose methods update it in place, and
    the loops of app.js proved against the functions that specify them. */
module Browser {
  import opened Ticks
  import opened Indicators
  import opened Streaks
  import opened BrowserRules

  /** The history cap of `handleMessage`. */
  const TickCap: nat := 2000

  /** A decoded feed message. A tick carries the symbol, the quote's string
      form, the number `parseFloat` reads from it, and the epoch. */
  datatype FeedMessage =
    | TickMessage(symbol: string, quote: string, price: real, epoch: int)
    | OtherMessage(msgType: string)

  /** A value for each of the five markets: the shape of the page state's
      per-symbol objects, whose keys are always exactly the five symbols. */
  datatype ByMarket<T> = ByMarket(r10: T, r25: T, r50: T, r75: T, r100: T) {
    /** `obj[symbol]`. */
    function At(m: Market): T {
      match m
      case R10 => r10
      case R25 => r25
      case R50 => r50
      case R75 => r75
      case R100 => r100
    }

    /** `obj[symbol] = v`: that market's value is `v`, the others stay. */
    function With(m: Market, v: T): (r: ByMarket<T>)
      ensures r.At(m) == v
      ensures forall k: Market :: k != m ==> r.At(k) == At(k)
    {
      match m
      case R10 => this.(r10 := v)
      case R25 => this.(r25 := v)
      case R50 => this.(r50 := v)
      case R75 => this.(r75 := v)
      case R100 => this.(r100 := v)
    }
  }

  /** The same value for every market. */
  function Every<T>(v: T): (r: ByMarket<T>)
    ensures forall m: Market :: r.At(m) == v
  {
    ByMarket(v, v, v, v, v)
  }

  /** One market's entries in the page state's four per-symbol objects
      (`state.ticks`, `state.digitCounts`, `state.rsi`, `state.ema`), kept
      together since they always share their keys. */
  datatype Book = Book(ticks: seq<Tick>, digitCounts: seq<nat>, rsi: real, ema: Emas)

  /** The initial entry: no ticks, ten zero counters, RSI 50, zero averages. */
  const FreshBook: Book := Book([], NoCounts, 50.0, Emas(0.0, 0.0, 0.0, 0.0, 0.0))

  /** One market's entry, given every tick `h` handled for it since the page
      loaded or its tracker was reset: the history is the newest 2000 of
      them, the counters count all of them, and the RSI is in range. */
  ghost predicate MarketState(b: Book, h: seq<Tick>) {
    && b.ticks == Recent(h, TickCap)
    && b.digitCounts == DigitCounts(h)
    && 0.0 <= b.rsi <= 100.0
  }

  /** Every market's entry and record since its reset are related as
      MarketState states. */
  ghost predicate Consistent(books: ByMarket<Book>, sinceReset: ByMarket<seq<Tick>>) {
    forall m: Market :: MarketState(books.At(m), sinceReset.At(m))
  }

  /** The entry after one handled tick `t`: the bounded push onto the
      history, one more for the tick's digit, and RSI(14) and the five
      averages of the new history once it holds five prices. */
  function AfterTick(b: Book, t: Tick): (b2: Book)
    requires |b.ticks| <= TickCap && |b.digitCounts| == 10
    ensures b2.ticks == PushBounded(b.ticks, t, TickCap)
    ensures |b2.digitCounts| == 10
    ensures b2.digitCounts == Bump(b.digitCounts, t.digit)
    ensures |b2.ticks| < 5 ==> b2.rsi == b.rsi && b2.ema == b.ema
    ensures |b2.ticks| >= 5 ==> b2.rsi == Rsi(Prices(b2.ticks), 14) && b2.ema == EmasOf(Prices(b2.ticks))
  {
    var ticks := PushBounded(b.ticks, t, TickCap);
    var counts := Bump(b.digitCounts, t.digit);
    if |ticks| < 5 then b.(ticks := ticks, digitCounts := counts)
    else Book(ticks, counts, Rsi(Prices(ticks), 14), EmasOf(Prices(ticks)))
  }

  class BrowserState {
    /** The per-market entries of `state.ticks`, `state.digitCounts`,
        `state.rsi` and `state.ema`. */
    var books: ByMarket<Book>
    /** The latest price per symbol; a market without a price yet (`null`)
        has no entry. */
    var prices: map<string, real>
    var trackerMarket: Market
    /** Every tick handled per market since the page loaded or the market's
        tracker reset, evicted ticks included. */
    ghost var sinceReset: ByMarket<seq<Tick>>

    /** The history holds the newest 2000 ticks since the last reset; the
        digit counters count every one of them, evicted or not; the RSI is
        a percentage. */
    ghost predicate Valid()
      reads this
    {
      Consistent(books, sinceReset)
    }

    /** The initial `state`: empty histories, zero counters, RSI 50, zero
        averages, no prices, tracker on R_75. */
    constructor ()
      ensures Valid()
      ensures books == Every(FreshBook) && prices == map[] && trackerMarket == R75
    {
      var none: seq<Tick> := [];
      books := Every(FreshBook);
      prices := map[];
      trackerMarket := R75;
      sinceReset := Every(none);
      new;
      DigitCountsOfEmpty();
    }

    /** `handleMessage`, without the UI refresh. A tick always records its
        price first; for a symbol outside the five markets the next step (the
        push) fails, so nothing else changes and `handled` is false. For one
        of the five markets the tick goes through PushTick. */
    method HandleMessage(msg: FeedMessage) returns (handled: bool)
      requires Valid()
      requires msg.TickMessage? ==> WellFormedQuote(msg.quote)
      modifies this`prices, this`books, this`sinceReset
      ensures Valid()
      ensures handled <==> msg.TickMessage? && MarketOf(msg.symbol).Some?
      ensures prices == old(if msg.TickMessage? then prices[msg.symbol := msg.price] else prices)
      ensures !handled ==> books == old(books) && sinceReset == old(sinceReset)
      ensures handled ==>
        var m, t := MarketOf(msg.symbol).value, Tick(msg.price, LastDigit(msg.quote), msg.epoch);
        && books == old(books.With(m, AfterTick(books.At(m), t)))
        && sinceReset == old(sinceReset.With(m, sinceReset.At(m) + [t]))
    {
      if !msg.TickMessage? {
        return false;
      }
      var price := msg.price;
      var digit := LastDigit(msg.quote);
      prices := prices[msg.symbol := price];
      var market := MarketOf(msg.symbol);
      if market.None? {
        return false;
      }
      PushTick(market.value, Tick(price, digit, msg.epoch));
      handled := true;
    }

    /** The part of `handleMessage` after the price: push the tick onto the
        market's history, shifting out the oldest beyond 2000, bump its
        digit's counter, and refresh the market's indicators. */
    method PushTick(m: Market, t: Tick)
      requires Valid()
      modifies this`books, this`sinceReset
      ensures Valid()
      ensures books == old(books.With(m, AfterTick(books.At(m), t)))
      ensures sinceReset == old(sinceReset.With(m, sinceReset.At(m) + [t]))
    {
      ConsistentAfterTick(books, sinceReset, m, t);
      var b := PushOnto(books.At(m), t);
      books := books.With(m, b);
      sinceReset := sinceReset.With(m, sinceReset.At(m) + [t]);
    }

    /** The tracker's market selector. */
    method SelectTrackerMarket(m: Market)
      requires Valid()
      modifies this`trackerMarket
      ensures Valid()
      ensures trackerMarket == m
    {
      trackerMarket := m;
    }

    /** The tracker's reset button: the tracked market's history and digit
        counters start again from nothing; its RSI and averages, and every
        other market, stay as they were. */
    method ResetTracker()
      requires Valid()
      modifies this`books, this`sinceReset
      ensures Valid()
      ensures books == old(books.With(trackerMarket, books.At(trackerMarket).(ticks := [], digitCounts := NoCounts)))
      ensures sinceReset == old(sinceReset.With(trackerMarket, []))
    {
      ConsistentAfterReset(books, sinceReset, trackerMarket);
      books := books.With(trackerMarket, books.At(trackerMarket).(ticks := [], digitCounts := NoCounts));
      sinceReset := sinceReset.With(trackerMarket, []);
    }
  }

  /** The statements of `handleMessage` on one market's entry: push, shift
      beyond 2000, count the digit, update the indicators. */
  method PushOnto(b: Book, t: Tick) returns (b2: Book)
    requires |b.ticks| <= TickCap && |b.digitCounts| == 10
    ensures b2 == AfterTick(b, t)
  {
    var buffer := ShiftPush(b.ticks, t);
    var counts := Bump(b.digitCounts, t.digit);
    var rsi, ema := UpdateIndicators(buffer, b.rsi, b.ema);
    b2 := Book(buffer, counts, rsi, ema);
  }

  /** The push onto a market's buffer, dropping the oldest tick once it
      holds more than 2000. */
  method ShiftPush(ticks: seq<Tick>, t: Tick) returns (buffer: seq<Tick>)
    requires |ticks| <= TickCap
    ensures buffer == PushBounded(ticks, t, TickCap)
  {
    buffer := ticks + [t];
    if |buffer| > TickCap {
      buffer := buffer[1..];
    }
  }

  /** `updateIndicators` for one market's new history: nothing below five
      prices; otherwise RSI(14) and the five averages of the whole history. */
  method UpdateIndicators(ticks: seq<Tick>, rsi0: real, ema0: Emas) returns (rsi: real, ema: Emas)
    ensures |ticks| < 5 ==> rsi == rsi0 && ema == ema0
    ensures |ticks| >= 5 ==> rsi == Rsi(Prices(ticks), 14) && ema == EmasOf(Prices(ticks))
  {
    var ps := Prices(ticks);
    if |ps| < 5 {
      return rsi0, ema0;
    }
    rsi := CalcRsi(ps, 14);
    var e5 := CalcEma(ps, 5);
    var e10 := CalcEma(ps, 10);
    var e20 := CalcEma(ps, 20);
    var e50 := CalcEma(ps, 50);
    var e200 := CalcEma(ps, 200);
    ema := Emas(e5, e10, e20, e50, e200);
  }

  /** Clearing one market's history and counters keeps the state consistent,
      whatever RSI and averages it still shows. */
  lemma ConsistentAfterReset(books: ByMarket<Book>, sinceReset: ByMarket<seq<Tick>>, m: Market)
    requires Consistent(books, sinceReset)
    ensures Consistent(books.With(m, books.At(m).(ticks := [], digitCounts := NoCounts)), sinceReset.With(m, []))
  {
    DigitCountsOfEmpty();
    var b2, s2 := books.With(m, books.At(m).(ticks := [], digitCounts := NoCounts)), sinceReset.With(m, []);
    forall k: Market ensures MarketState(b2.At(k), s2.At(k)) {
      if k != m {
        assert MarketState(books.At(k), sinceReset.At(k));
      }
    }
  }

  /** A handled tick keeps the state consistent: the capped push keeps the
      newest 2000 ticks, the bumped counter counts the longer record, and the
      RSI of the new history is in range. */
  lemma ConsistentAfterTick(books: ByMarket<Book>, sinceReset: ByMarket<seq<Tick>>, m: Market, t: Tick)
    requires Consistent(books, sinceReset)
    ensures |books.At(m).ticks| <= TickCap && |books.At(m).digitCounts| == 10
    ensures Consistent(books.With(m, AfterTick(books.At(m), t)), sinceReset.With(m, sinceReset.At(m) + [t]))
  {
    assert MarketState(books.At(m), sinceReset.At(m));
    MarketStateAfterTick(books.At(m), sinceReset.At(m), t);
    var b2, s2 := books.With(m, AfterTick(books.At(m), t)), sinceReset.With(m, sinceReset.At(m) + [t]);
    forall k: Market ensures MarketState(b2.At(k), s2.At(k)) {
      if k != m {
        assert MarketState(books.At(k), sinceReset.At(k));
      }
    }
  }

  /** One market's part of ConsistentAfterTick. */
  lemma MarketStateAfterTick(b: Book, h: seq<Tick>, t: Tick)
    requires MarketState(b, h)
    ensures |b.ticks| <= TickCap && |b.digitCounts| == 10
    ensures MarketState(AfterTick(b, t), h + [t])
  {
    HistoryAfterTick(b, h, t);
    CountsAfterTick(b, h, t);
  }

  lemma HistoryAfterTick(b: Book, h: seq<Tick>, t: Tick)
    requires b.ticks == Recent(h, TickCap) && |b.digitCounts| == 10
    ensures AfterTick(b, t).ticks == Recent(h + [t], TickCap)
  {
    PushBoundedRecent(h, t, TickCap);
  }

  lemma CountsAfterTick(b: Book, h: seq<Tick>, t: Tick)
    requires b.digitCounts == DigitCounts(h) && |b.ticks| <= TickCap
    ensures AfterTick(b, t).digitCounts == DigitCounts(h + [t])
  {
    DigitCountsOfAppend(h, t);
  }

  /** The running counter accounts for every tick since the reset, so it
      never counts fewer ticks than the capped history holds, per digit and
      in total, and counts more once the cap has evicted any. */
  lemma CounterCoversHistory(h: seq<Tick>)
    ensures Total(DigitCounts(h)) == |h| >= |Recent(h, TickCap)|
    ensures |h| > TickCap ==> Total(DigitCounts(h)) > |Recent(h, TickCap)|
    ensures forall d :: 0 <= d < 10 ==> Count(Recent(h, TickCap), Is(d)) <= DigitCounts(h)[d]
  {
    HistogramSums(h);
    DigitCountsCount(h);
    forall d | 0 <= d < 10 ensures Count(Recent(h, TickCap), Is(d)) <= DigitCounts(h)[d] {
      CountOfSuffix(h, |h| - |Recent(h, TickCap)|, Is(d));
    }
  }

  /** The first loop of app.js's `calcRSI`: the changes pushed one by one. */
  method CollectChanges(prices: seq<real>) returns (changes: seq<real>)
    ensures changes == Changes(prices)
  {
    changes := [];
    var i := 1;
    while i < |prices|
      invariant 1 <= i <= Max(|prices|, 1) && |changes| == i - 1
      invariant forall j :: 0 <= j < i - 1 ==> changes[j] == prices[j + 1] - prices[j]
    {
      changes := changes + [prices[i] - prices[i - 1]];
      i := i + 1;
    }
  }

  /** app.js's `calcRSI`: the collected changes, their last `period`, then the
      RSI of those as in RsiOf. Proved to compute Rsi. */
  method CalcRsi(prices: seq<real>, period: nat) returns (r: real)
    requires period >= 1
    ensures r == Rsi(prices, period)
  {
    if |prices| < period + 1 {
      return 50.0;
    }
    var changes := CollectChanges(prices);
    var recent := SliceFrom(changes, -(period as int));
    RecentChangesSlice(prices, period);
    r := RsiOf(recent, period);
  }

  /** `getStreak(ticks, type)`: the backward scan over same-parity digits;
      any type other than "even" or "odd" stops at once. */
  method GetStreak(ticks: seq<Tick>, kind: string) returns (count: nat)
    ensures kind == "even" ==> count == ParityRun(ticks, true)
    ensures kind == "odd" ==> count == ParityRun(ticks, false)
    ensures kind != "even" && kind != "odd" ==> count == 0
  {
    count := 0;
    var i := |ticks|;
    while i > 0 && ((kind == "even" && ticks[i - 1].digit % 2 == 0) || (kind == "odd" && ticks[i - 1].digit % 2 != 0))
      invariant 0 <= i <= |ticks| && count == |ticks| - i
      invariant kind == "even" ==> forall j :: i <= j < |ticks| ==> IsEven(ticks[j].digit)
      invariant kind == "odd" ==> forall j :: i <= j < |ticks| ==> !IsEven(ticks[j].digit)
      invariant kind != "even" && kind != "odd" ==> i == |ticks|
    {
      count := count + 1;
      i := i - 1;
    }
    if kind == "even" {
      ParityRunUnique(ticks, true, count);
    } else if kind == "odd" {
      ParityRunUnique(ticks, false, count);
    }
  }

  /** The rise-streak loop of `updateStreaks`: strict rises counted backward
      from the newest tick. */
  method RiseStreak(ticks: seq<Tick>) returns (riseStreak: nat)
    ensures riseStreak == RiseRun(Prices(ticks))
  {
    riseStreak := 0;
    var i := |ticks| - 1;
    while i > 0 && ticks[i].price > ticks[i - 1].price
      invariant riseStreak <= Max(|ticks| - 1, 0) && i == |ticks| - 1 - riseStreak
      invariant |ticks| > 0 ==> 0 <= i
      invariant forall j :: i <= j < |ticks| - 1 ==> ticks[j].price < ticks[j + 1].price
    {
      riseStreak := riseStreak + 1;
      i := i - 1;
    }
    RiseRunUnique(Prices(ticks), riseStreak);
  }

  /** `getDigitFrequency(mkt, window)`: the histogram of the last `window` ticks. */
  method DigitFrequency(ticks: seq<Tick>, window: int) returns (counts: seq<nat>)
    ensures counts == DigitCounts(SliceFrom(ticks, -window))
    ensures window > 0 ==> Total(counts) == Min(window, |ticks|)
    ensures window == 0 ==> Total(counts) == |ticks|
  {
    HistogramSums(SliceFrom(ticks, -window));
    counts := Tally(SliceFrom(ticks, -window));
  }

  /** The repeat test of `updateMDPage`: a frequency object keyed by the
      digits that occur, then `Object.values(..).some(v => v >= 2)`. */
  method HasRepeats(w: seq<Tick>) returns (hasRepeats: bool)
    ensures hasRepeats == HasRepeat(w)
  {
    var freq: map<int, nat> := map[];
    for i := 0 to |w|
      invariant forall d :: d in freq ==> 0 <= d < 10
      invariant forall d :: 0 <= d < 10 ==> (if d in freq then freq[d] else 0) == Count(w[..i], Is(d))
    {
      assert w[..i + 1][..i] == w[..i];
      var d := w[i].digit;
      freq := freq[d := (if d in freq then freq[d] else 0) + 1];
    }
    assert w[..|w|] == w;
    hasRepeats := false;
    for d := 0 to 10
      invariant hasRepeats <==> exists e :: 0 <= e < d && Count(w, Is(e)) >= 2
    {
      if d in freq && freq[d] >= 2 {
        hasRepeats := true;
      }
    }
  }

  /** The loop of the alternation check: neighbouring ticks of `w` differ in
      parity, scanning forward and stopping at the first pair that does not. */
  method IsAlternating(w: seq<Tick>) returns (isAlternating: bool)
    ensures isAlternating == Alternates(w)
  {
    isAlternating := true;
    var i := 1;
    while i < |w| && isAlternating
      invariant 1 <= i && (|w| > 0 ==> i <= |w|)
      invariant isAlternating ==> forall j :: 0 < j < i && j < |w| ==> w[j].digit % 2 != w[j - 1].digit % 2
      invariant !isAlternating ==> 0 < i < |w| && w[i].digit % 2 == w[i - 1].digit % 2
      decreases |w| - i, isAlternating
    {
      if w[i].digit % 2 == w[i - 1].digit % 2 {
        isAlternating := false;
      } else {
        i := i + 1;
      }
    }
  }

  /** The alternation hint of `updateEvenOddPage` as app.js computes it: the
      loop runs over indices 1..min(length, 6) of the last 20 ticks. */
  method AlternationCheckAsWritten(ticks: seq<Tick>) returns (hint: ParityHint)
    ensures hint == AlternationHintAsWritten(SliceFrom(ticks, -20))
  {
    var w := SliceFrom(ticks, -20);
    var isAlternating := IsAlternating(w[..Min(|w|, 6)]);
    if isAlternating && |w| >= 4 {
      hint := if w[|w| - 1].digit % 2 == 0 then BetOdd else BetEven;
    } else {
      hint := NoAlternation;
    }
  }

  /** The alternation hint with the loop over the newest six ticks of the
      window, the ones the suggested parity follows. */
  method AlternationCheck(ticks: seq<Tick>) returns (hint: ParityHint)
    ensures hint == AlternationHint(SliceFrom(ticks, -20))
  {
    var w := SliceFrom(ticks, -20);
    var isAlternating := IsAlternating(w[|w| - Min(|w|, 6)..]);
    if isAlternating && |w| >= 4 {
      hint := if w[|w| - 1].digit % 2 == 0 then BetOdd else BetEven;
    } else {
      hint := NoAlternation;
    }
  }
}
