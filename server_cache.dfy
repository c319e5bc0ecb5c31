/** ServerCache: the in-memory cache of server.js and the set of streaming
    clients, updated by `processTick` and by the stream route. */
module ServerCache {
  import opened Ticks
  import opened Server

  /** The buffers the cache starts with: one empty buffer per market. */
  function InitialBuffers(): (b: map<string, seq<Tick>>)
    ensures forall m: Market :: SymbolOf(m) in b && b[SymbolOf(m)] == []
  {
    map["R_10" := [], "R_25" := [], "R_50" := [], "R_75" := [], "R_100" := []]
  }

  /** No buffer holds more than 5000 ticks. */
  ghost predicate Bounded(ticks: map<string, seq<Tick>>) {
    forall k :: k in ticks ==> |ticks[k]| <= ServerCap
  }

  /** The buffer a tick for `mkt` is pushed onto: its own, or a new empty one. */
  function BufferOf(ticks: map<string, seq<Tick>>, mkt: string): seq<Tick> {
    if mkt in ticks then ticks[mkt] else []
  }

  /** The buffer of `mkt` after a tick `t`: pushed, and without its oldest
      tick once it held 5000. */
  function Pushed(ticks: map<string, seq<Tick>>, mkt: string, t: Tick): (b: seq<Tick>)
    requires Bounded(ticks)
    ensures 1 <= |b| <= ServerCap && b[|b| - 1] == t
  {
    PushBounded(BufferOf(ticks, mkt), t, ServerCap)
  }

  /** A buffer holding the newest 5000 of the ticks `h` of a market holds the
      newest 5000 of `h + [t]` after the push; an unknown market's first
      tick starts a buffer of its own. */
  lemma PushedKeepsNewest(ticks: map<string, seq<Tick>>, mkt: string, h: seq<Tick>, t: Tick)
    requires Bounded(ticks) && BufferOf(ticks, mkt) == Recent(h, ServerCap)
    ensures Pushed(ticks, mkt, t) == Recent(h + [t], ServerCap)
    ensures mkt !in ticks ==> Pushed(ticks, mkt, t) == [t]
  {
    PushBoundedRecent(h, t, ServerCap);
  }

  class Cache {
    var ticks: map<string, seq<Tick>>
    var prices: map<string, real>
    var lastUpdate: map<string, int>
    var digitStats: map<string, DigitStats>
    var signals: map<string, Signals>
    /** The streaming clients, by an identity of their response object. */
    var clients: set<nat>

    ghost predicate Valid()
      reads this`ticks
    {
      Bounded(ticks)
    }

    constructor ()
      ensures Valid()
      ensures ticks == InitialBuffers() && prices == map[] && lastUpdate == map[]
      ensures digitStats == map[] && signals == map[] && clients == {}
    {
      ticks := InitialBuffers();
      prices := map[];
      lastUpdate := map[];
      digitStats := map[];
      signals := map[];
      clients := {};
    }

    /** `processTick` for a tick of symbol `mkt` with quote text `quote`
        (parsed as `price`) at time `now` and UTC hour `utcHour`; `failing`
        holds the clients whose write of the broadcast fails. */
    method ProcessTick(mkt: string, quote: string, price: real, epoch: int,
                       now: int, utcHour: int, failing: set<nat>)
      requires Valid() && WellFormedQuote(quote)
      modifies this`ticks, this`prices, this`lastUpdate
      modifies this`digitStats, this`signals, this`clients
      ensures Valid()
      ensures var t := Tick(price, LastDigit(quote), epoch);
        ticks == old(ticks[mkt := Pushed(ticks, mkt, t)])
      ensures prices == old(prices)[mkt := price] && lastUpdate == old(lastUpdate)[mkt := now]
      ensures var t := Tick(price, LastDigit(quote), epoch);
        digitStats == old(digitStats[mkt := Stats(Pushed(ticks, mkt, t))])
      ensures var t := Tick(price, LastDigit(quote), epoch);
        signals == old(signals[mkt := SignalsOf(Stats(Pushed(ticks, mkt, t)), price, utcHour)])
      ensures clients == old(clients) - failing
    {
      var buffer := Record(mkt, Tick(price, LastDigit(quote), epoch));
      Quote(mkt, price, now);
      var stats := StoreStats(mkt, buffer);
      StoreSignals(mkt, stats, utcHour);
      Broadcast(failing);
    }

    /** The latest price and the time it arrived. */
    method Quote(mkt: string, price: real, now: int)
      modifies this`prices, this`lastUpdate
      ensures prices == old(prices)[mkt := price] && lastUpdate == old(lastUpdate)[mkt := now]
    {
      prices := prices[mkt := price];
      lastUpdate := lastUpdate[mkt := now];
    }

    /** `computeStats(mkt)`: the statistics of the updated buffer. */
    method StoreStats(mkt: string, buffer: seq<Tick>) returns (stats: DigitStats)
      modifies this`digitStats
      ensures stats == Stats(buffer)
      ensures digitStats == old(digitStats[mkt := Stats(buffer)])
    {
      stats := ComputeStats(buffer);
      digitStats := digitStats[mkt := stats];
    }

    /** `computeSignals(mkt)`, which `computeStats` ends with. */
    method StoreSignals(mkt: string, stats: DigitStats, utcHour: int)
      requires mkt in prices && |stats.digitPcts| == 10
      modifies this`signals
      ensures signals == old(signals[mkt := SignalsOf(stats, prices[mkt], utcHour)])
    {
      signals := signals[mkt := SignalsOf(stats, prices[mkt], utcHour)];
    }

    /** Push onto the market's buffer, creating it for an unknown symbol,
        and drop the oldest tick beyond 5000. */
    method Record(mkt: string, t: Tick) returns (buffer: seq<Tick>)
      requires Valid()
      modifies this`ticks
      ensures Valid()
      ensures buffer == old(Pushed(ticks, mkt, t))
      ensures ticks == old(ticks)[mkt := buffer]
    {
      buffer := if mkt in ticks then ticks[mkt] else [];
      buffer := buffer + [t];
      if |buffer| > ServerCap {
        buffer := buffer[1..];
      }
      ticks := ticks[mkt := buffer];
    }

    /** The write loop over the clients: a client whose write fails is
        removed, every other one stays. */
    method Broadcast(failing: set<nat>)
      modifies this`clients
      ensures clients == old(clients) - failing
    {
      var pending := clients;
      var kept := clients;
      while pending != {}
        invariant pending <= old(clients)
        invariant kept == old(clients) - (failing * (old(clients) - pending))
        decreases |pending|
      {
        var c :| c in pending;
        if c in failing {
          kept := kept - {c};
        }
        pending := pending - {c};
      }
      clients := kept;
    }

    /** The stream route adds the client's response to the set. */
    method Subscribe(c: nat)
      modifies this`clients
      ensures clients == old(clients) + {c}
    {
      clients := clients + {c};
    }

    /** Closing the request removes the client's response from the set. */
    method Close(c: nat)
      modifies this`clients
      ensures clients == old(clients) - {c}
    {
      clients := clients - {c};
    }
  }

}
