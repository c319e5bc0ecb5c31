/** Streaks: how far back from the newest tick a pattern holds. Both
    deployments scan backward and stop at the first tick that breaks it. */
module Streaks {
  import opened Ticks

  predicate IsEven(d: Digit) {
    d % 2 == 0
  }

  /** The number of newest ticks whose digits all have the parity `even`:
      the longest such suffix. */
  function ParityRun(ts: seq<Tick>, even: bool): (r: nat)
    ensures r <= |ts|
    ensures forall i :: |ts| - r <= i < |ts| ==> IsEven(ts[i].digit) == even
    ensures r < |ts| ==> IsEven(ts[|ts| - 1 - r].digit) != even
  {
    if ts == [] || IsEven(ts[|ts| - 1].digit) != even then 0
    else 1 + ParityRun(ts[..|ts| - 1], even)
  }

  /** A suffix length with the same two properties is ParityRun itself. */
  lemma ParityRunUnique(ts: seq<Tick>, even: bool, r: nat)
    requires r <= |ts|
    requires forall i :: |ts| - r <= i < |ts| ==> IsEven(ts[i].digit) == even
    requires r < |ts| ==> IsEven(ts[|ts| - 1 - r].digit) != even
    ensures r == ParityRun(ts, even)
  {
  }

  /** The even run and the odd run are never both positive, and on a
      non-empty history exactly one of them is. */
  lemma ParityRunsExclusive(ts: seq<Tick>)
    ensures ParityRun(ts, true) == 0 || ParityRun(ts, false) == 0
    ensures |ts| > 0 ==> (ParityRun(ts, true) > 0 <==> ParityRun(ts, false) == 0)
  {
  }

  /** Digits 2, 4, 6, 1, 3 (newest last): the odd run is 2 (the 3 and the
      1, stopped by the 6) and the even run is 0. */
  lemma StreakExample()
    ensures var ts := [Tick(0.0, 2, 0), Tick(0.0, 4, 0), Tick(0.0, 6, 0), Tick(0.0, 1, 0), Tick(0.0, 3, 0)];
      ParityRun(ts, false) == 2 && ParityRun(ts, true) == 0
  {
    var ts := [Tick(0.0, 2, 0), Tick(0.0, 4, 0), Tick(0.0, 6, 0), Tick(0.0, 1, 0), Tick(0.0, 3, 0)];
    assert ts[..4][..3] == ts[..3];
  }

  /** The number of strict rises at the end of a price sequence: the longest
      strictly increasing suffix has one price more. */
  function RiseRun(ps: seq<real>): (r: nat)
    ensures r <= Max(|ps| - 1, 0)
    ensures forall j :: |ps| - 1 - r <= j < |ps| - 1 ==> ps[j] < ps[j + 1]
    ensures r < |ps| - 1 ==> ps[|ps| - 2 - r] >= ps[|ps| - 1 - r]
  {
    if |ps| < 2 || ps[|ps| - 1] <= ps[|ps| - 2] then 0
    else 1 + RiseRun(ps[..|ps| - 1])
  }

  /** A rise count with the same properties is RiseRun itself. */
  lemma RiseRunUnique(ps: seq<real>, r: nat)
    requires r <= Max(|ps| - 1, 0)
    requires forall j :: |ps| - 1 - r <= j < |ps| - 1 ==> ps[j] < ps[j + 1]
    requires r < |ps| - 1 ==> ps[|ps| - 2 - r] >= ps[|ps| - 1 - r]
    ensures r == RiseRun(ps)
  {
  }
}
