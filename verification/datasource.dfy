/**
 * The bounded random walk that synthesises a candle series.
 *
 * The source draws from a global random generator; here every draw is an
 * explicit input: a `seed` for the first open and, per step, a `Draw` holding
 * the three uniform samples in the order the source takes them.
 */
module DataSource {
  import opened Candles

  const SeedLow: real := 80.0
  const SeedHigh: real := 120.0
  const DriftBound: real := 20.0
  const JitterLow: real := 5.0
  const JitterHigh: real := 15.0

  /** The samples one step of the walk consumes: close drift, high jitter, low jitter. */
  datatype Draw = Draw(drift: real, highJitter: real, lowJitter: real)

  /** `uniform(80, 120)` for the first open. */
  predicate ValidSeed(seed: real) {
    SeedLow <= seed <= SeedHigh
  }

  /** `uniform(-20, 20)` for the drift and `uniform(5, 15)` for both jitters. */
  predicate ValidDraw(d: Draw) {
    && -DriftBound <= d.drift <= DriftBound
    && JitterLow <= d.highJitter <= JitterHigh
    && JitterLow <= d.lowJitter <= JitterHigh
  }

  predicate ValidDraws(ds: seq<Draw>) {
    forall i :: 0 <= i < |ds| ==> ValidDraw(ds[i])
  }

  /** `data_points` when `generate_candle_data` or `generate_chart` is called without one. */
  const DefaultDataPoints: int := 20

  /**
   * One step of the walk, opening at the previous close: the draw can be read
   * back off the candle as its body's move and the lengths of its two shadows.
   */
  function Step(lastClose: real, d: Draw): (c: Candle)
    ensures c.open == lastClose && c.close - c.open == d.drift
    ensures c.high - Max(c.open, c.close) == d.highJitter
    ensures Min(c.open, c.close) - c.low == d.lowJitter
  {
    var close := lastClose + d.drift;
    Candle(lastClose, Max(lastClose, close) + d.highJitter, Min(lastClose, close) - d.lowJitter, close)
  }

  /** The close the next step opens at: the last candle's close, or the seed before any step. */
  function LastClose(seed: real, data: seq<Candle>): real {
    if |data| == 0 then seed else data[|data| - 1].close
  }

  /** Reference definition of the walk: the candles produced by consuming `ds` in order. */
  function Walk(seed: real, ds: seq<Draw>): (r: seq<Candle>)
    ensures |r| == |ds|
  {
    if |ds| == 0 then []
    else
      var prev := Walk(seed, ds[..|ds| - 1]);
      prev + [Step(LastClose(seed, prev), ds[|ds| - 1])]
  }

  /** Number of steps `range(data_points)` performs. */
  function StepCount(dataPoints: int): (n: nat)
    ensures dataPoints <= 0 ==> n == 0
    ensures dataPoints > 0 ==> n == dataPoints
  {
    if dataPoints > 0 then dataPoints else 0
  }

  /** Each candle of the walk is one `Step` from the previous close (or from the seed). */
  lemma {:induction false} WalkSteps(seed: real, ds: seq<Draw>)
    ensures |ds| > 0 ==> Walk(seed, ds)[0].open == seed
    ensures forall i :: 1 <= i < |ds| ==> Walk(seed, ds)[i].open == Walk(seed, ds)[i - 1].close
    ensures forall i :: 0 <= i < |ds| ==> Walk(seed, ds)[i] == Step(Walk(seed, ds)[i].open, ds[i])
  {
    if |ds| > 0 {
      var pre := ds[..|ds| - 1];
      WalkSteps(seed, pre);
      var r := Walk(seed, ds);
      assert r[..|ds| - 1] == Walk(seed, pre);
    }
  }

  /** Walking a prefix of the draws yields the prefix of the walk. */
  lemma {:induction false} WalkPrefix(seed: real, ds: seq<Draw>, k: nat)
    requires k <= |ds|
    ensures Walk(seed, ds[..k]) == Walk(seed, ds)[..k]
    decreases |ds|
  {
    if k < |ds| {
      var pre := ds[..|ds| - 1];
      assert ds[..k] == pre[..k];
      WalkPrefix(seed, pre, k);
    } else {
      assert ds[..k] == ds;
    }
  }

  /**
   * With draws in their ranges, every generated candle has its high at least 5
   * above and its low at least 5 below its body, so the wick strictly encloses it.
   */
  lemma WalkWellFormed(seed: real, ds: seq<Draw>)
    requires ValidDraws(ds)
    ensures forall i :: 0 <= i < |ds| ==>
              && Max(Walk(seed, ds)[i].open, Walk(seed, ds)[i].close) + JitterLow <= Walk(seed, ds)[i].high
              && Walk(seed, ds)[i].low <= Min(Walk(seed, ds)[i].open, Walk(seed, ds)[i].close) - JitterLow
    ensures forall i :: 0 <= i < |ds| ==>
              && Walk(seed, ds)[i].low < Min(Walk(seed, ds)[i].open, Walk(seed, ds)[i].close)
              && Max(Walk(seed, ds)[i].open, Walk(seed, ds)[i].close) < Walk(seed, ds)[i].high
              && WellFormed(Walk(seed, ds)[i])
    ensures forall i :: 0 <= i < |ds| ==> Abs(Walk(seed, ds)[i].close - Walk(seed, ds)[i].open) <= DriftBound
  {
    WalkSteps(seed, ds);
  }

  /**
   * `generate_candle_data`: `max(dataPoints, 0)` candles, the first opening at
   * the seed and each later one opening at the previous close.
   */
  method GenerateCandleData(dataPoints: int, seed: real, ds: seq<Draw>) returns (data: seq<Candle>)
    requires ValidSeed(seed) && ValidDraws(ds)
    requires dataPoints <= |ds|
    ensures |data| == StepCount(dataPoints)
    ensures data == Walk(seed, ds[..|data|])
    ensures |data| > 0 ==> data[0].open == seed
    ensures forall i :: 1 <= i < |data| ==> data[i].open == data[i - 1].close
    ensures forall i :: 0 <= i < |data| ==> data[i].close == data[i].open + ds[i].drift
    ensures forall i :: 0 <= i < |data| ==>
              && Max(data[i].open, data[i].close) + JitterLow <= data[i].high
              && data[i].low <= Min(data[i].open, data[i].close) - JitterLow
  {
    var n := StepCount(dataPoints);
    data := [];
    var lastClose := seed;
    var i := 0;
    while i < n
      invariant 0 <= i <= n
      invariant data == Walk(seed, ds[..i])
      invariant lastClose == LastClose(seed, data)
    {
      var openPrice := lastClose;
      var close := openPrice + ds[i].drift;
      var high := Max(openPrice, close) + ds[i].highJitter;
      var low := Min(openPrice, close) - ds[i].lowJitter;
      assert ds[..i + 1][..i] == ds[..i];
      data := data + [Candle(openPrice, high, low, close)];
      lastClose := close;
      i := i + 1;
    }
    WalkOfPrefix(seed, ds, n);
  }

  /** The shape facts of `WalkSteps` and `WalkWellFormed`, read off the walk of a prefix of the draws. */
  lemma WalkOfPrefix(seed: real, ds: seq<Draw>, n: nat)
    requires ValidDraws(ds) && n <= |ds|
    ensures var data := Walk(seed, ds[..n]);
            && (n > 0 ==> data[0].open == seed)
            && (forall i :: 1 <= i < n ==> data[i].open == data[i - 1].close)
            && (forall i :: 0 <= i < n ==> data[i].close == data[i].open + ds[i].drift)
            && (forall i :: 0 <= i < n ==>
                  && Max(data[i].open, data[i].close) + JitterLow <= data[i].high
                  && data[i].low <= Min(data[i].open, data[i].close) - JitterLow)
  {
    var used := ds[..n];
    assert forall i :: 0 <= i < n ==> used[i] == ds[i];
    assert ValidDraws(used);
    WalkSteps(seed, used);
    WalkWellFormed(seed, used);
  }
}
