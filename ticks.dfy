/** Ticks: the price observations both deployments keep, and the sequence
    helpers that the browser (app.js) and the server (server.js) share. */
module Ticks {

  /** The value of a quote's last character. */
  type Digit = d: int | 0 <= d <= 9

  /** One observation: the parsed price, its last digit and the feed's epoch. */
  datatype Tick = Tick(price: real, digit: Digit, epoch: int)

  datatype Option<T> = None | Some(value: T)

  /** The five volatility indices both deployments subscribe to. */
  datatype Market = R10 | R25 | R50 | R75 | R100

  /** The feed's symbol for a market. */
  function SymbolOf(m: Market): string {
    match m
    case R10 => "R_10"
    case R25 => "R_25"
    case R50 => "R_50"
    case R75 => "R_75"
    case R100 => "R_100"
  }

  /** The market a symbol names, if it names one of the five. */
  function MarketOf(symbol: string): (r: Option<Market>)
    ensures r.Some? ==> SymbolOf(r.value) == symbol
    ensures r.None? ==> forall m: Market :: SymbolOf(m) != symbol
  {
    if symbol == "R_10" then Some(R10)
    else if symbol == "R_25" then Some(R25)
    else if symbol == "R_50" then Some(R50)
    else if symbol == "R_75" then Some(R75)
    else if symbol == "R_100" then Some(R100)
    else None
  }

  /** Different markets have different symbols, so a symbol names at most one. */
  lemma MarketOfSymbol(m: Market)
    ensures MarketOf(SymbolOf(m)) == Some(m)
  {
  }

  function Min(a: int, b: int): int { if a <= b then a else b }
  function Max(a: int, b: int): int { if a >= b then a else b }
  function Abs(x: real): real { if x < 0.0 then -x else x }

  predicate IsDigitChar(c: char) { '0' <= c <= '9' }

  /** A quote as the feed sends it: its string form ends in a decimal digit. */
  predicate WellFormedQuote(quote: string) {
    |quote| > 0 && IsDigitChar(quote[|quote| - 1])
  }

  function DigitChar(d: Digit): (c: char)
    ensures IsDigitChar(c)
  {
    ('0' as int + d) as char
  }

  /** The tick's digit: the final character of the quote's string form,
      read as a number (not a rounding of the price). */
  function LastDigit(quote: string): (d: Digit)
    requires WellFormedQuote(quote)
    ensures DigitChar(d) == quote[|quote| - 1]
  {
    quote[|quote| - 1] as int - '0' as int
  }

  /** Whatever precedes it, a quote ending in the character of `d` has digit `d`. */
  lemma LastDigitOfQuote(prefix: string, d: Digit)
    ensures WellFormedQuote(prefix + [DigitChar(d)])
    ensures LastDigit(prefix + [DigitChar(d)]) == d
  {
  }

  /** JavaScript's `array.slice(start)`: a negative start counts from the end,
      and the start is clamped to the array. */
  function SliceFrom<T>(s: seq<T>, start: int): (r: seq<T>)
    ensures |r| <= |s|
    ensures start < 0 ==> |r| == Min(-start, |s|)
    ensures start >= 0 ==> |r| == |s| - Min(start, |s|)
  {
    var from := if start < 0 then Max(|s| + start, 0) else Min(start, |s|);
    if from == 0 then s else s[from..]
  }

  /** `slice(-n)` for a positive n keeps the n most recent elements (or all of
      them); `slice(-0)` is `slice(0)` and keeps everything. */
  lemma SliceFromRecent<T>(s: seq<T>, n: int)
    ensures n > 0 ==> SliceFrom(s, -n) == s[|s| - Min(n, |s|)..]
    ensures n == 0 ==> SliceFrom(s, -n) == s
  {
  }

  /** The `n` most recent elements of `s` (all of them when there are fewer). */
  function Recent<T>(s: seq<T>, n: nat): (r: seq<T>)
    ensures |r| == Min(n, |s|)
    ensures r == s[|s| - |r|..]
  {
    s[|s| - Min(n, |s|)..]
  }

  /** `buffer.push(t); if (buffer.length > cap) buffer.shift();` */
  function PushBounded<T>(s: seq<T>, t: T, cap: nat): (r: seq<T>)
    requires |s| <= cap
    ensures |r| == Min(|s| + 1, cap)
    ensures cap > 0 ==> r[|r| - 1] == t
    ensures forall i {:trigger r[i]} :: 0 <= i < |r| - 1 ==> r[i] == s[i + |s| + 1 - |r|]
  {
    var n := Min(|s| + 1, cap);
    seq(n, i requires 0 <= i < n => if i == n - 1 then t else s[i + |s| + 1 - n])
  }

  /** A buffer that holds the `cap` most recent ticks still holds the `cap`
      most recent ones, in arrival order, after a bounded push. */
  lemma PushBoundedRecent<T>(h: seq<T>, t: T, cap: nat)
    ensures PushBounded(Recent(h, cap), t, cap) == Recent(h + [t], cap)
  {
    if |h| < cap {
      assert Recent(h, cap) == h;
      assert Recent(h + [t], cap) == h + [t];
    } else if cap > 0 {
      var w := h[|h| - cap..];
      assert Recent(h, cap) == w;
      assert (w + [t])[1..] == h[|h| - cap + 1..] + [t];
      assert (h + [t])[|h| + 1 - cap..] == h[|h| - cap + 1..] + [t];
    }
  }

  /** The prices of a tick sequence, in order (`ticks.map(t => t.price)`). */
  function Prices(ts: seq<Tick>): (ps: seq<real>)
    ensures |ps| == |ts|
    ensures forall i {:trigger ps[i]} :: 0 <= i < |ts| ==> ps[i] == ts[i].price
  {
    seq(|ts|, i requires 0 <= i < |ts| => ts[i].price)
  }

  /** The digits of a tick sequence, in order (`ticks.map(t => t.digit)`). */
  function Digits(ts: seq<Tick>): (ds: seq<Digit>)
    ensures |ds| == |ts|
    ensures forall i {:trigger ds[i]} :: 0 <= i < |ts| ==> ds[i] == ts[i].digit
  {
    seq(|ts|, i requires 0 <= i < |ts| => ts[i].digit)
  }

  /** Slicing commutes with taking the prices, so `ticks.slice(-50).map(price)`
      is `ticks.map(price).slice(-50)`. */
  lemma PricesOfSlice(ts: seq<Tick>, start: int)
    ensures Prices(SliceFrom(ts, start)) == SliceFrom(Prices(ts), start)
  {
    var a, b := Prices(SliceFrom(ts, start)), SliceFrom(Prices(ts), start);
    assert |a| == |b|;
    forall i | 0 <= i < |a| ensures a[i] == b[i] {
      var off := |ts| - |a|;
      assert SliceFrom(ts, start)[i] == ts[off + i];
    }
  }

  /** The digit classes the rules count: one digit, even, odd, low (0-4), high (5-9). */
  datatype DigitClass = Is(k: int) | EvenDigit | OddDigit | Low | High

  predicate InClass(d: Digit, c: DigitClass) {
    match c
    case Is(k) => d == k
    case EvenDigit => d % 2 == 0
    case OddDigit => d % 2 != 0
    case Low => d <= 4
    case High => d >= 5
  }

  /** `ticks.filter(t => <class>).length`. */
  function Count(ts: seq<Tick>, c: DigitClass): (n: nat)
    ensures n <= |ts|
  {
    if ts == [] then 0
    else Count(ts[..|ts| - 1], c) + (if InClass(ts[|ts| - 1].digit, c) then 1 else 0)
  }

  /** Every tick is either even or odd, and either low or high. */
  lemma {:induction false} CountComplements(ts: seq<Tick>)
    ensures Count(ts, EvenDigit) + Count(ts, OddDigit) == |ts|
    ensures Count(ts, Low) + Count(ts, High) == |ts|
  {
    if ts != [] {
      CountComplements(ts[..|ts| - 1]);
    }
  }

  /** A count over a suffix never exceeds the count over the whole sequence. */
  lemma {:induction false} CountOfSuffix(ts: seq<Tick>, k: nat, c: DigitClass)
    requires k <= |ts|
    ensures Count(ts[k..], c) <= Count(ts, c)
  {
    if k < |ts| {
      var init := ts[..|ts| - 1];
      assert ts[k..][..|ts[k..]| - 1] == init[k..];
      CountOfSuffix(init, k, c);
    } else {
      assert ts[k..] == [];
    }
  }

  lemma CountOfAppend(ts: seq<Tick>, t: Tick, c: DigitClass)
    ensures Count(ts + [t], c) == Count(ts, c) + (if InClass(t.digit, c) then 1 else 0)
  {
    assert (ts + [t])[..|ts|] == ts;
  }

  /** `Array(10).fill(0)`. */
  const NoCounts: seq<nat> := [0, 0, 0, 0, 0, 0, 0, 0, 0, 0]

  /** `counts[d]++` on a ten-slot histogram. */
  function Bump(c: seq<nat>, d: Digit): (r: seq<nat>)
    requires |c| == 10
    ensures |r| == 10
    ensures forall k :: 0 <= k < 10 ==> r[k] == c[k] + (if k == d then 1 else 0)
  {
    c[d := c[d] + 1]
  }

  /** The ten-slot histogram of a tick sequence, as
      `ticks.forEach(t => counts[t.digit]++)` leaves it over `NoCounts`. */
  function DigitCounts(ts: seq<Tick>): (c: seq<nat>)
    ensures |c| == 10
  {
    if ts == [] then NoCounts
    else
      Bump(DigitCounts(ts[..|ts| - 1]), ts[|ts| - 1].digit)
  }

  /** Slot `d` of the histogram is the number of ticks whose digit is `d`. */
  lemma {:induction false} DigitCountsCount(ts: seq<Tick>)
    ensures forall d :: 0 <= d < 10 ==> DigitCounts(ts)[d] == Count(ts, Is(d))
  {
    if ts != [] {
      DigitCountsCount(ts[..|ts| - 1]);
    }
  }

  /** No tick, no count: ten zero slots. */
  lemma DigitCountsOfEmpty()
    ensures DigitCounts([]) == NoCounts
  {
  }

  /** One more tick bumps exactly its own digit's slot by one. */
  lemma DigitCountsOfAppend(ts: seq<Tick>, t: Tick)
    ensures DigitCounts(ts + [t]) == Bump(DigitCounts(ts), t.digit)
  {
    assert (ts + [t])[..|ts|] == ts;
  }

  /** The loop `ticks.forEach(t => counts[t.digit]++)` over a ten-slot array
      of zeros, proved to build the histogram. */
  method Tally(w: seq<Tick>) returns (counts: seq<nat>)
    ensures counts == DigitCounts(w)
  {
    var a := new nat[10](_ => 0);
    assert a[..] == NoCounts;
    for i := 0 to |w|
      invariant a[..] == DigitCounts(w[..i])
    {
      assert w[..i + 1][..i] == w[..i];
      a[w[i].digit] := a[w[i].digit] + 1;
    }
    assert w[..|w|] == w;
    counts := a[..];
  }

  /** Sum of a histogram (the histogram always has ten slots). */
  function Total(c: seq<int>): int
    requires |c| == 10
  {
    c[0] + c[1] + c[2] + c[3] + c[4] + c[5] + c[6] + c[7] + c[8] + c[9]
  }

  /** Sum of the even-numbered slots: `counts.filter((_, i) => i % 2 === 0).reduce(+)`. */
  function EvenSlots(c: seq<int>): int
    requires |c| == 10
  {
    c[0] + c[2] + c[4] + c[6] + c[8]
  }

  /** Sum of slots 5..9: `counts.slice(5).reduce(+)`. */
  function HighSlots(c: seq<int>): int
    requires |c| == 10
  {
    c[5] + c[6] + c[7] + c[8] + c[9]
  }

  /** The histogram accounts for every tick exactly once; its even slots count
      the even ticks and its slots 5..9 count the high ticks. */
  lemma {:induction false} HistogramSums(ts: seq<Tick>)
    ensures Total(DigitCounts(ts)) == |ts|
    ensures EvenSlots(DigitCounts(ts)) == Count(ts, EvenDigit)
    ensures HighSlots(DigitCounts(ts)) == Count(ts, High)
  {
    if ts != [] {
      var init, t := ts[..|ts| - 1], ts[|ts| - 1];
      assert ts == init + [t];
      HistogramSums(init);
      DigitCountsOfAppend(init, t);
      CountOfAppend(init, t, EvenDigit);
      CountOfAppend(init, t, High);
      SlotsOfBump(DigitCounts(init), t.digit);
    }
  }

  /** One more in slot `d` adds one to the total, and to the even or the
      high sum when `d` is even or high. */
  lemma SlotsOfBump(c: seq<nat>, d: Digit)
    requires |c| == 10
    ensures Total(Bump(c, d)) == Total(c) + 1
    ensures EvenSlots(Bump(c, d)) == EvenSlots(c) + (if d % 2 == 0 then 1 else 0)
    ensures HighSlots(Bump(c, d)) == HighSlots(c) + (if d >= 5 then 1 else 0)
  {
  }

  /** A digit histogram with a slot of 2 or more: some digit repeats. */
  predicate HasRepeat(ts: seq<Tick>) {
    exists d :: 0 <= d < 10 && Count(ts, Is(d)) >= 2
  }

  /** Pigeonhole: eleven or more ticks always contain a repeated digit. */
  lemma Pigeonhole(ts: seq<Tick>)
    requires |ts| > 10
    ensures HasRepeat(ts)
  {
    HistogramSums(ts);
    DigitCountsCount(ts);
  }
}
