/** The hourly EMA of lib/ema.ts and the chaining of stored values in lib/chaseSignal.ts. */
module Ema {
  import opened Options
  import opened Rounding

  /** One hourly bar; `day` stands for the UTC date the source compares with today. */
  datatype Candle = Candle(day: int, high: real, low: real, close: real)

  datatype Reading = Reading(ema: int, highestHigh: int, lowestLow: int, lastClose: int)

  function Typical(c: Candle): real {
    (c.high + c.low + c.close) / 3.0
  }

  function Typicals(cs: seq<Candle>): (h: seq<real>)
    ensures |h| == |cs|
  {
    seq(|cs|, i requires 0 <= i < |cs| => Typical(cs[i]))
  }

  function Multiplier(period: nat): (m: real)
    requires period >= 1
    ensures 0.0 < m <= 1.0
    ensures m * (period as real + 1.0) == 2.0
  {
    2.0 / (period as real + 1.0)
  }

  function Step(m: real, prev: real, x: real): real {
    x * m + prev * (1.0 - m)
  }

  /** Feeding a run of typical prices through the incremental step. */
  function Fold(m: real, seed: real, xs: seq<real>): real {
    if |xs| == 0 then seed else Step(m, Fold(m, seed, xs[..|xs| - 1]), xs[|xs| - 1])
  }

  function Pow(b: real, n: nat): real {
    if n == 0 then 1.0 else b * Pow(b, n - 1)
  }

  /** Bar i of n counts k^(n-1-i). */
  function Discounted(k: real, xs: seq<real>): real {
    if |xs| == 0 then 0.0 else Pow(k, |xs| - 1) * xs[0] + Discounted(k, xs[1..])
  }

  function Sum(xs: seq<real>): real {
    if |xs| == 0 then 0.0 else Sum(xs[..|xs| - 1]) + xs[|xs| - 1]
  }

  /** The unrounded value the source builds from history when there is no previous EMA. */
  function Rebuild(xs: seq<real>, period: nat): real
    requires 1 <= period <= |xs|
  {
    Fold(Multiplier(period), Sum(xs[..period]) / period as real, xs[period..])
  }

  lemma {:induction false} DiscountedSnoc(k: real, xs: seq<real>, x: real)
    ensures Discounted(k, xs + [x]) == k * Discounted(k, xs) + x
  {
    var longer := xs + [x];
    if |xs| == 0 {
      assert longer[1..] == [];
    } else {
      DiscountedSnoc(k, xs[1..], x);
      assert longer[1..] == xs[1..] + [x];
      Distribute(k, Pow(k, |xs| - 1), xs[0], Discounted(k, xs[1..]));
    }
  }

  lemma Distribute(k: real, p: real, x: real, rest: real)
    ensures (k * p) * x + k * rest == k * (p * x + rest)
  {
  }

  /** One incremental step from a rebuilt EMA equals a rebuild over one more candle. */
  lemma {:induction false} IncrementalIsRebuild(xs: seq<real>, x: real, period: nat)
    requires 1 <= period <= |xs|
    ensures Step(Multiplier(period), Rebuild(xs, period), x) == Rebuild(xs + [x], period)
  {
    var longer := xs + [x];
    assert longer[..period] == xs[..period];
    assert longer[period..] == xs[period..] + [x];
    assert (xs[period..] + [x])[..|xs[period..]|] == xs[period..];
  }

  /** With just `period` bars the EMA is their plain mean. */
  lemma FirstEmaIsMean(xs: seq<real>)
    requires |xs| > 0
    ensures Rebuild(xs, |xs|) * |xs| as real == Sum(xs)
  {
    assert xs[..|xs|] == xs;
  }

  ghost predicate ThirdsOf(ts: seq<real>, hs: seq<real>, ls: seq<real>, cs: seq<real>) {
    |ts| == |hs| == |ls| == |cs| && forall i :: 0 <= i < |ts| ==> 3.0 * ts[i] == hs[i] + ls[i] + cs[i]
  }

  lemma StepOfThirds(m: real, prev: real, x: real, ph: real, h: real, pl: real, l: real, pc: real, c: real)
    requires 3.0 * prev == ph + pl + pc && 3.0 * x == h + l + c
    ensures 3.0 * Step(m, prev, x) == Step(m, ph, h) + Step(m, pl, l) + Step(m, pc, c)
  {
    var k := 1.0 - m;
    assert 3.0 * (x * m) == h * m + l * m + c * m by { assert (3.0 * x) * m == (h + l + c) * m; }
    assert 3.0 * (prev * k) == ph * k + pl * k + pc * k by { assert (3.0 * prev) * k == (ph + pl + pc) * k; }
  }

  lemma {:induction false} FoldOfThirds(m: real, seed: real, ts: seq<real>, h: real, hs: seq<real>, l: real, ls: seq<real>, c: real, cs: seq<real>)
    requires ThirdsOf(ts, hs, ls, cs) && 3.0 * seed == h + l + c
    ensures 3.0 * Fold(m, seed, ts) == Fold(m, h, hs) + Fold(m, l, ls) + Fold(m, c, cs)
  {
    if |ts| > 0 {
      var n := |ts| - 1;
      FoldOfThirds(m, seed, ts[..n], h, hs[..n], l, ls[..n], c, cs[..n]);
      StepOfThirds(m, Fold(m, seed, ts[..n]), ts[n], Fold(m, h, hs[..n]), hs[n], Fold(m, l, ls[..n]), ls[n], Fold(m, c, cs[..n]), cs[n]);
    }
  }

  lemma {:induction false} SumOfThirds(ts: seq<real>, hs: seq<real>, ls: seq<real>, cs: seq<real>)
    requires ThirdsOf(ts, hs, ls, cs)
    ensures 3.0 * Sum(ts) == Sum(hs) + Sum(ls) + Sum(cs)
  {
    if |ts| > 0 {
      var n := |ts| - 1;
      SumOfThirds(ts[..n], hs[..n], ls[..n], cs[..n]);
    }
  }

  lemma QuotientOfThirds(s: real, a: real, b: real, c: real, p: real)
    requires p > 0.0 && 3.0 * s == a + b + c
    ensures 3.0 * (s / p) == a / p + b / p + c / p
  {
    assert (a + b + c) / p == a / p + b / p + c / p;
  }

  function Highs(cs: seq<Candle>): seq<real> { seq(|cs|, i requires 0 <= i < |cs| => cs[i].high) }

  function Lows(cs: seq<Candle>): seq<real> { seq(|cs|, i requires 0 <= i < |cs| => cs[i].low) }

  function Closes(cs: seq<Candle>): seq<real> { seq(|cs|, i requires 0 <= i < |cs| => cs[i].close) }

  /** The EMA of the candles is the mean of the EMAs of their highs, their lows and their closes. */
  lemma EmaIsMeanOfThree(cs: seq<Candle>, period: nat)
    requires 1 <= period <= |cs|
    ensures 3.0 * Rebuild(Typicals(cs), period)
         == Rebuild(Highs(cs), period) + Rebuild(Lows(cs), period) + Rebuild(Closes(cs), period)
  {
    var ts, hs, ls, xs, p := Typicals(cs), Highs(cs), Lows(cs), Closes(cs), period as real;
    SumOfThirds(ts[..period], hs[..period], ls[..period], xs[..period]);
    var a, b, c := Sum(hs[..period]), Sum(ls[..period]), Sum(xs[..period]);
    QuotientOfThirds(Sum(ts[..period]), a, b, c, p);
    FoldOfThirds(Multiplier(period), Sum(ts[..period]) / p, ts[period..], a / p, hs[period..], b / p, ls[period..], c / p, xs[period..]);
  }

  lemma {:induction false} SumBounds(xs: seq<real>, lo: real, hi: real)
    requires forall i :: 0 <= i < |xs| ==> lo <= xs[i] <= hi
    ensures lo * |xs| as real <= Sum(xs) <= hi * |xs| as real
  {
    if |xs| > 0 {
      SumBounds(xs[..|xs| - 1], lo, hi);
      var n := (|xs| - 1) as real;
      assert lo * (n + 1.0) == lo * n + lo && hi * (n + 1.0) == hi * n + hi;
    }
  }

  /** The step moves the previous value the fraction m of the way to the new one. */
  lemma StepMoves(m: real, prev: real, x: real)
    ensures Step(m, prev, x) == prev + (x - prev) * m
  {
  }

  /** A fraction of a move lies between nothing and the whole move. */
  lemma Fraction(d: real, m: real) returns (p: real)
    requires 0.0 <= m <= 1.0
    ensures p == d * m
    ensures d >= 0.0 ==> 0.0 <= p <= d
    ensures d <= 0.0 ==> d <= p <= 0.0
  {
    p := d * m;
  }

  lemma StepBounds(m: real, prev: real, x: real, lo: real, hi: real)
    requires 0.0 < m <= 1.0 && lo <= prev <= hi && lo <= x <= hi
    ensures lo <= Step(m, prev, x) <= hi
  {
    StepMoves(m, prev, x);
    var p := Fraction(x - prev, m);
    assert lo <= prev + p <= hi;
  }

  lemma {:induction false} FoldBounds(m: real, seed: real, xs: seq<real>, lo: real, hi: real)
    requires 0.0 < m <= 1.0 && lo <= seed <= hi
    requires forall i :: 0 <= i < |xs| ==> lo <= xs[i] <= hi
    ensures lo <= Fold(m, seed, xs) <= hi
  {
    if |xs| > 0 {
      FoldBounds(m, seed, xs[..|xs| - 1], lo, hi);
      StepBounds(m, Fold(m, seed, xs[..|xs| - 1]), xs[|xs| - 1], lo, hi);
    }
  }

  lemma QuotientBounds(s: real, p: real, lo: real, hi: real)
    requires p > 0.0 && lo * p <= s <= hi * p
    ensures lo <= s / p <= hi
  {
    var q := s / p;
    assert q * p == s;
    ScaleOrder(lo, q, p);
    ScaleOrder(q, hi, p);
  }

  /** Scaling by a positive factor preserves and reflects the order. */
  lemma ScaleOrder(a: real, b: real, k: real)
    requires k > 0.0
    ensures a * k <= b * k <==> a <= b
  {
    if a <= b {
      assert (b - a) * k >= 0.0;
    } else {
      assert (a - b) * k > 0.0;
    }
  }

  /** The unrounded EMA never leaves the range of the typical prices it was built from. */
  lemma RebuildBetween(xs: seq<real>, period: nat, lo: real, hi: real)
    requires 1 <= period <= |xs|
    requires forall i :: 0 <= i < |xs| ==> lo <= xs[i] <= hi
    ensures lo <= Rebuild(xs, period) <= hi
  {
    SumBounds(xs[..period], lo, hi);
    var mean := Sum(xs[..period]) / period as real;
    QuotientBounds(Sum(xs[..period]), period as real, lo, hi);
    FoldBounds(Multiplier(period), mean, xs[period..], lo, hi);
  }

  /** A product that the inductions below treat as one value. */
  function Scaled(k: real, x: real): real { k * x }

  lemma PowOnce(b: real, n: nat)
    ensures Pow(b, n + 1) == Scaled(b, Pow(b, n))
  {
  }

  lemma StepApart(m: real, k: real, a: real, b: real, x: real, p: real, d: real)
    requires k == 1.0 - m && a - b == Scaled(p, d)
    ensures Step(m, a, x) - Step(m, b, x) == Scaled(Scaled(k, p), d)
  {
    assert a * k - b * k == (a - b) * k;
    assert (p * d) * k == (k * p) * d;
  }

  lemma {:induction false} PriorsApart(m: real, k: real, a: real, b: real, xs: seq<real>)
    requires k == 1.0 - m
    ensures Fold(m, a, xs) - Fold(m, b, xs) == Scaled(Pow(k, |xs|), a - b)
  {
    if |xs| > 0 {
      hide Scaled, Step, Pow;
      var before, x := xs[..|xs| - 1], xs[|xs| - 1];
      PriorsApart(m, k, a, b, before);
      StepApart(m, k, Fold(m, a, before), Fold(m, b, before), x, Pow(k, |before|), a - b);
      PowOnce(k, |before|);
    }
  }

  /** Two different prior EMAs converge by exactly the factor 1-m per bar, keeping their order. */
  lemma PriorsConverge(m: real, k: real, a: real, b: real, xs: seq<real>)
    requires k == 1.0 - m
    ensures Fold(m, a, xs) - Fold(m, b, xs) == Pow(k, |xs|) * (a - b)
  {
    PriorsApart(m, k, a, b, xs);
  }

  lemma OneMoreDiscounted(k: real, xs: seq<real>)
    requires |xs| > 0
    ensures Discounted(k, xs) == Scaled(k, Discounted(k, xs[..|xs| - 1])) + xs[|xs| - 1]
  {
    hide Discounted;
    DiscountedSnoc(k, xs[..|xs| - 1], xs[|xs| - 1]);
    assert xs[..|xs| - 1] + [xs[|xs| - 1]] == xs;
  }

  lemma StepFromZero(m: real, k: real, prev: real, d: real, x: real)
    requires k == 1.0 - m && prev == Scaled(m, d)
    ensures Step(m, prev, x) == Scaled(m, Scaled(k, d) + x)
  {
    assert prev * k == m * (k * d) by { assert (m * d) * k == m * (k * d); }
    assert m * (k * d + x) == m * (k * d) + m * x;
  }

  lemma {:induction false} FoldFromZero(m: real, k: real, xs: seq<real>)
    requires k == 1.0 - m
    ensures Fold(m, 0.0, xs) == Scaled(m, Discounted(k, xs))
  {
    if |xs| > 0 {
      hide Scaled, Step, Discounted;
      var before, x := xs[..|xs| - 1], xs[|xs| - 1];
      FoldFromZero(m, k, before);
      OneMoreDiscounted(k, xs);
      StepFromZero(m, k, Fold(m, 0.0, before), Discounted(k, before), x);
    }
  }

  /** Running the bar-by-bar recurrence gives the textbook weighting: bar i of n counts m * (1-m)^(n-1-i), the seed (1-m)^n. */
  lemma FoldIsWeighted(m: real, k: real, seed: real, xs: seq<real>)
    requires k == 1.0 - m
    ensures Fold(m, seed, xs) == Pow(k, |xs|) * seed + m * Discounted(k, xs)
  {
    PriorsConverge(m, k, seed, 0.0, xs);
    FoldFromZero(m, k, xs);
  }

  // ---- the stored series ----

  /** The EMA table row of one hour: the integer the previous hour stored. */
  datatype Resolution = Seed | Continue(prev: int) | Gap(prev: int)

  /**
   * `resolveChasePrevEma`: `accepted` says whether the prior row carries the expected
   * bar time. A row with a missing bar is reused, never rebuilt.
   */
  function ResolvePrevEma(stored: Option<int>, accepted: bool): Resolution {
    match stored
    case None => Seed
    case Some(e) => if accepted then Continue(e) else Gap(e)
  }

  /** What one hourly job stores for a bar of typical price `x`, given the last stored row. */
  function StoreHour(period: nat, seed: real, stored: Option<int>, accepted: bool, x: real): int
    requires period >= 1
  {
    match ResolvePrevEma(stored, accepted)
    case Seed => RoundHalfUp(seed)
    case Continue(p) => RoundHalfUp(Step(Multiplier(period), p as real, x))
    case Gap(p) => RoundHalfUp(Step(Multiplier(period), p as real, x))
  }

  /** The series: hour 0 seeds from history, every later hour feeds back the stored integer. */
  function Stored(period: nat, seed: real, xs: seq<real>, accepted: seq<bool>): int
    requires period >= 1 && |accepted| == |xs|
  {
    if |xs| == 0 then StoreHour(period, seed, None, false, 0.0)
    else
      var n := |xs| - 1;
      StoreHour(period, seed, Some(Stored(period, seed, xs[..n], accepted[..n])), accepted[n], xs[n])
  }

  /** The drift that one step shrinks by the half that rounding may add. */
  predicate Steady(m: real, bound: real) { 0.0 < m <= 1.0 && 2.0 * m * bound == 1.0 }

  lemma QuarterIsSteady(period: nat)
    requires period >= 1
    ensures Steady(Multiplier(period), (period as real + 1.0) / 4.0)
  {
    var m, bound := Multiplier(period), (period as real + 1.0) / 4.0;
    assert 2.0 * m * bound == m * (period as real + 1.0) / 2.0;
  }

  lemma DriftStep(m: real, bound: real, stored: real, exact: real, x: real, rounded: real)
    requires Steady(m, bound)
    requires Abs(stored - exact) <= bound
    requires Abs(rounded - Step(m, stored, x)) <= 0.5
    ensures Abs(rounded - Step(m, exact, x)) <= bound
  {
    var apart := DriftShrinks(stored - exact, m, bound);
    assert apart == Step(m, stored, x) - Step(m, exact, x);
  }

  lemma DriftShrinks(d: real, m: real, bound: real) returns (left: real)
    requires Steady(m, bound) && -bound <= d <= bound
    ensures left == d - d * m
    ensures -(bound - 0.5) <= left <= bound - 0.5
  {
    left := d - d * m;
    var below := Fraction(bound - d, m);
    var above := Fraction(bound + d, m);
    assert below == bound * m - d * m;
    assert above == bound * m + d * m;
  }

  /**
   * Rounding every hour and feeding the integer back never drifts further than
   * (period + 1) / 4 from the unrounded EMA started from the same seed, for any
   * number of hours and whether or not bars were missing in between.
   */
  lemma {:induction false} StoredStaysNearExact(period: nat, seed: real, xs: seq<real>, accepted: seq<bool>)
    requires period >= 1 && |accepted| == |xs|
    ensures Abs(Stored(period, seed, xs, accepted) as real - Fold(Multiplier(period), seed, xs))
         <= (period as real + 1.0) / 4.0
  {
    if |xs| > 0 {
      hide Step, Multiplier, Steady;
      var n, m := |xs| - 1, Multiplier(period);
      var bound := (period as real + 1.0) / 4.0;
      StoredStaysNearExact(period, seed, xs[..n], accepted[..n]);
      var prev := Stored(period, seed, xs[..n], accepted[..n]) as real;
      QuarterIsSteady(period);
      DriftStep(m, bound, prev, Fold(m, seed, xs[..n]), xs[n], Stored(period, seed, xs, accepted) as real);
    }
  }

  // ---- calculateEmaFromCandles ----

  function Today(cs: seq<Candle>, today: int): (r: seq<Candle>)
    ensures forall c :: c in r <==> c in cs && c.day == today
  {
    if |cs| == 0 then []
    else Today(cs[..|cs| - 1], today) + (if cs[|cs| - 1].day == today then [cs[|cs| - 1]] else [])
  }

  lemma TodayIsEmpty(cs: seq<Candle>, today: int)
    ensures |Today(cs, today)| == 0 <==> forall c :: c in cs ==> c.day != today
  {
    var day := Today(cs, today);
    if |day| > 0 {
      assert day[0] in day;
    }
    assert |day| == 0 <==> forall c :: c !in day;
  }

  function MaxHigh(cs: seq<Candle>): (r: real)
    requires |cs| > 0
    ensures (exists c :: c in cs && c.high == r) && forall c :: c in cs ==> c.high <= r
  {
    if |cs| == 1 then cs[0].high
    else
      var rest := MaxHigh(cs[1..]);
      assert forall c :: c in cs <==> c == cs[0] || c in cs[1..];
      if cs[0].high >= rest then cs[0].high else rest
  }

  function MinLow(cs: seq<Candle>): (r: real)
    requires |cs| > 0
    ensures (exists c :: c in cs && c.low == r) && forall c :: c in cs ==> r <= c.low
  {
    if |cs| == 1 then cs[0].low
    else
      var rest := MinLow(cs[1..]);
      assert forall c :: c in cs <==> c == cs[0] || c in cs[1..];
      if cs[0].low <= rest then cs[0].low else rest
  }

  /** The least whole-rupee range around the day's candles. */
  ghost predicate WidensRange(day: seq<Candle>, high: int, low: int) {
    && (forall c :: c in day ==> c.high <= high as real && low as real <= c.low)
    && (exists c :: c in day && high as real < c.high + 1.0)
    && (exists c :: c in day && c.low - 1.0 < low as real)
  }

  ghost predicate LastCloseIs(cs: seq<Candle>, today: int, close: int) {
    exists i: nat :: LastOf(cs, today, i) && close == RoundHalfUp(cs[i].close)
  }

  /** Whole-rupee bar statistics: the day's range is widened outward, the close of its last candle rounded. */
  ghost predicate DescribesToday(r: Reading, cs: seq<Candle>, today: int) {
    && |Today(cs, today)| > 0 && WidensRange(Today(cs, today), r.highestHigh, r.lowestLow)
    && LastCloseIs(cs, today, r.lastClose)
  }

  /** Candle i is today's last one. */
  ghost predicate LastOf(cs: seq<Candle>, today: int, i: nat) {
    i < |cs| && cs[i].day == today && forall j :: i < j < |cs| ==> cs[j].day != today
  }

  lemma {:induction false} LastOfToday(cs: seq<Candle>, today: int) returns (i: nat)
    requires |Today(cs, today)| > 0
    ensures LastOf(cs, today, i) && Today(cs, today)[|Today(cs, today)| - 1] == cs[i]
  {
    var n := |cs| - 1;
    if cs[n].day == today {
      i := n;
    } else {
      i := LastOfToday(cs[..n], today);
    }
  }

  method CalculateEmaFromCandles(candles: seq<Candle>, today: int, prevEma: Option<real>, period: nat)
    returns (r: Option<Reading>)
    requires period >= 1
    ensures r.None? <==> (forall c :: c in candles ==> c.day != today) || (prevEma.None? && |candles| < period)
    ensures r.Some? ==> DescribesToday(r.value, candles, today)
    ensures r.Some? && prevEma.None? ==> r.value.ema == RoundHalfUp(Rebuild(Typicals(candles), period))
    ensures r.Some? && prevEma.Some? ==>
      r.value.ema == RoundHalfUp(Step(Multiplier(period), prevEma.value, Typical(candles[|candles| - 1])))
  {
    var multiplier := Multiplier(period);
    var filtered := Today(candles, today);
    TodayIsEmpty(candles, today);
    if |filtered| == 0 {
      return None;
    }
    if prevEma.None? && |candles| < period {
      return None;
    }
    var hlc := Typicals(candles);
    var ema: real;
    if prevEma.None? {
      ema := SeedLoop(hlc, period, multiplier);
    } else {
      ema := Step(multiplier, prevEma.value, hlc[|hlc| - 1]);
    }
    StatisticsDescribe(RoundHalfUp(ema), candles, today);
    r := Some(DayStatistics(RoundHalfUp(ema), candles, today));
  }

  function DayStatistics(ema: int, cs: seq<Candle>, today: int): Reading
    requires |Today(cs, today)| > 0
  {
    var day := Today(cs, today);
    Reading(ema, Ceil(MaxHigh(day)), MinLow(day).Floor, RoundHalfUp(day[|day| - 1].close))
  }

  lemma StatisticsDescribe(ema: int, cs: seq<Candle>, today: int)
    requires |Today(cs, today)| > 0
    ensures DescribesToday(DayStatistics(ema, cs, today), cs, today)
  {
    RangeWidens(Today(cs, today));
    LastCloseIsRounded(cs, today);
  }

  lemma RangeWidens(day: seq<Candle>)
    requires |day| > 0
    ensures WidensRange(day, Ceil(MaxHigh(day)), MinLow(day).Floor)
  {
  }

  lemma LastCloseIsRounded(cs: seq<Candle>, today: int)
    requires |Today(cs, today)| > 0
    ensures LastCloseIs(cs, today, RoundHalfUp(Today(cs, today)[|Today(cs, today)| - 1].close))
  {
    var i := LastOfToday(cs, today);
    ClosesOn(cs, today, i, Today(cs, today)[|Today(cs, today)| - 1]);
  }

  lemma ClosesOn(cs: seq<Candle>, today: int, i: nat, c: Candle)
    requires LastOf(cs, today, i) && c == cs[i]
    ensures LastCloseIs(cs, today, RoundHalfUp(c.close))
  {
  }

  /** The seed loop: an SMA of the first `period` bars, then one array entry per later bar. */
  method SeedLoop(hlc: seq<real>, period: nat, multiplier: real) returns (ema: real)
    requires 1 <= period <= |hlc| && multiplier == Multiplier(period)
    ensures ema == Rebuild(hlc, period)
  {
    var sma := Sum(hlc[..period]) / period as real;
    var emaArray := [sma];
    var i := period;
    while i < |hlc|
      invariant period <= i <= |hlc| && |emaArray| == i - period + 1
      invariant emaArray[|emaArray| - 1] == Fold(multiplier, sma, hlc[period..i])
    {
      assert hlc[period..i + 1][..i - period] == hlc[period..i];
      emaArray := emaArray + [Step(multiplier, emaArray[|emaArray| - 1], hlc[i])];
      i := i + 1;
    }
    assert hlc[period..|hlc|] == hlc[period..];
    ema := emaArray[|emaArray| - 1];
  }

  /** Candles with low <= high give a bar whose whole-rupee low is not above its high. */
  lemma ReadingIsOrdered(r: Reading, cs: seq<Candle>, today: int)
    requires DescribesToday(r, cs, today)
    requires forall c :: c in cs ==> c.low <= c.high
    ensures r.lowestLow <= r.highestHigh
  {
    var c := Today(cs, today)[0];
    assert c in Today(cs, today);
    assert r.lowestLow as real <= c.low <= c.high <= r.highestHigh as real;
  }
}
