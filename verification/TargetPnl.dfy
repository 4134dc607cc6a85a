/** The target watcher of lib/targetPnL.ts: mark to market and the trailing profit/loss ratchet. */
module TargetPnl {
  import opened Options
  import opened Rounding
  import opened Pnl

  // ---- mark to market ----

  datatype Position = Position(points: real, allCompleted: bool)

  type Quotes = string -> real

  /** The closing fill that takes an open row to zero at the last traded price. */
  function Closing(rows: seq<SymbolPoints>, ltp: Quotes): seq<Fill> {
    if |rows| == 0 then []
    else
      var row := rows[|rows| - 1];
      Closing(rows[..|rows| - 1], ltp)
      + (if row.quantity == 0 then []
         else [Fill(row.symbol, if row.quantity > 0 then SELL else BUY,
                    if row.quantity > 0 then row.quantity else -row.quantity, ltp(row.symbol))])
  }

  /** The reduce over the aggregated rows. */
  method MarkToMarket(rows: seq<SymbolPoints>, ltp: Quotes) returns (p: Position)
    ensures p.points == SumPoints(rows) + Total(Closing(rows, ltp), SignedPrice)
    ensures p.allCompleted <==> Closing(rows, ltp) == []
  {
    p := Position(0.0, true);
    for i := 0 to |rows|
      invariant p.points == SumPoints(rows[..i]) + Total(Closing(rows[..i], ltp), SignedPrice)
      invariant p.allCompleted <==> Closing(rows[..i], ltp) == []
    {
      var current := rows[i];
      NextRow(rows, i, ltp);
      if current.quantity == 0 {
        p := p.(points := p.points + current.points);
      } else {
        var price := ltp(current.symbol);
        p := Position(p.points + (current.points + (if current.quantity > 0 then price else -price)), false);
      }
    }
    assert rows[..|rows|] == rows;
  }

  function Mark(row: SymbolPoints, ltp: Quotes): real {
    if row.quantity == 0 then 0.0 else if row.quantity > 0 then ltp(row.symbol) else -ltp(row.symbol)
  }

  lemma NextRow(rows: seq<SymbolPoints>, i: nat, ltp: Quotes)
    requires i < |rows|
    ensures SumPoints(rows[..i + 1]) == SumPoints(rows[..i]) + rows[i].points
    ensures Total(Closing(rows[..i + 1], ltp), SignedPrice) == Total(Closing(rows[..i], ltp), SignedPrice) + Mark(rows[i], ltp)
    ensures Closing(rows[..i + 1], ltp) == [] <==> Closing(rows[..i], ltp) == [] && rows[i].quantity == 0
  {
    assert rows[..i + 1][..i] == rows[..i];
    var before, all := Closing(rows[..i], ltp), Closing(rows[..i + 1], ltp);
    if rows[i].quantity == 0 {
      assert all == before;
    } else {
      assert all[..|all| - 1] == before;
    }
  }

  ghost predicate EverySymbolFlat(fills: seq<Fill>) {
    forall s :: QtyOf(fills, s) == 0
  }

  /** A closing fill reverses its own row and leaves every other symbol alone. */
  lemma ClosingOne(rows: seq<SymbolPoints>, ltp: Quotes, s: string)
    requires |rows| > 0
    ensures var n := |rows| - 1;
      QtyOf(Closing(rows, ltp), s) == QtyOf(Closing(rows[..n], ltp), s) - (if rows[n].symbol == s then rows[n].quantity else 0)
  {
    var n := |rows| - 1;
    var before, all := Closing(rows[..n], ltp), Closing(rows, ltp);
    if rows[n].quantity == 0 {
      assert all == before;
    } else {
      assert all[..|all| - 1] == before;
    }
  }

  lemma {:induction false} ClosingQty(fills: seq<Fill>, names: seq<string>, rows: seq<SymbolPoints>, ltp: Quotes, s: string)
    requires Distinct(names) && |rows| == |names| && forall i :: 0 <= i < |rows| ==> rows[i] == Row(fills, names[i])
    ensures QtyOf(Closing(rows, ltp), s) == if s in names then -QtyOf(fills, s) else 0
  {
    if |rows| > 0 {
      var n := |rows| - 1;
      ClosingQty(fills, names[..n], rows[..n], ltp, s);
      ClosingOne(rows, ltp, s);
      assert s in names <==> s in names[..n] || s == names[n];
    }
  }

  lemma {:induction false} QtyOfConcat(a: seq<Fill>, b: seq<Fill>, s: string)
    ensures QtyOf(a + b, s) == QtyOf(a, s) + QtyOf(b, s)
  {
    RowTotals(a, s);
    RowTotals(b, s);
    RowTotals(a + b, s);
    TotalConcat(a, b, QtyAt(s));
  }

  /**
   * The watcher's unrounded points are the strategy points one would have after closing
   * every open symbol at its last price, and those closing fills bring every symbol flat.
   */
  lemma MarkToMarketIsClosingOut(fills: seq<Fill>, ltp: Quotes)
    ensures var close := Closing(Aggregate(fills), ltp);
      && SumPoints(Aggregate(fills)) + Total(close, SignedPrice) == StrategyPoints(fills + close)
      && EverySymbolFlat(fills + close)
      && (close == [] <==> EverySymbolFlat(fills))
  {
    var close := Closing(Aggregate(fills), ltp);
    AggregationConserves(fills + close);
    AggregationConserves(fills);
    TotalConcat(fills, close, SignedPrice);
    SymbolsListed(fills);
    forall s ensures QtyOf(fills + close, s) == 0 {
      ClosingQty(fills, Symbols(fills), Aggregate(fills), ltp, s);
      QtyOfConcat(fills, close, s);
      if s !in Symbols(fills) { AbsentTotals(fills, s); }
    }
    if close == [] {
      assert fills + close == fills;
    } else if EverySymbolFlat(fills) {
      AllFlatClosesNothing(Aggregate(fills), ltp);
    }
  }

  lemma {:induction false} AllFlatClosesNothing(rows: seq<SymbolPoints>, ltp: Quotes)
    requires forall i :: 0 <= i < |rows| ==> rows[i].quantity == 0
    ensures Closing(rows, ltp) == []
  {
    if |rows| > 0 { AllFlatClosesNothing(rows[..|rows| - 1], ltp); }
  }

  // ---- the ratchet ----

  /** `1 + (percent || 10) / 100` times the target, rounded to a tenth. */
  function EffectivePercent(percent: real): real {
    if percent == 0.0 then 10.0 else percent
  }

  /** What `target * percent / 100` adds, in hundredths. */
  function Gain(target: real, percent: real): real {
    target * EffectivePercent(percent)
  }

  function NextTarget(target: real, percent: real): real {
    RoundToStep((1.0 + EffectivePercent(percent) / 100.0) * target, 0.1)
  }

  datatype Levels = Levels(floor: real, target: real)

  function Raised(l: Levels, percent: real): Levels {
    Levels(l.target, NextTarget(l.target, percent))
  }

  predicate Tenths(x: real) {
    x * 10.0 == (x * 10.0).Floor as real
  }

  /** In tenths, the next target is the old one plus target * percent / 10, rounded. */
  lemma NextInTenths(target: real, percent: real) returns (gain: real)
    ensures gain == Gain(target, percent)
    ensures NextTarget(target, percent) == RoundHalfUp(target * 10.0 + gain / 10.0) as real * 0.1
  {
    var p := EffectivePercent(percent);
    gain := target * p;
    var value := (1.0 + p / 100.0) * target;
    assert value == target + gain / 100.0 by {
      assert (p / 100.0) * target == gain / 100.0;
    }
    assert value / 0.1 == target * 10.0 + gain / 10.0;
  }

  lemma RoundInTenths(target: real, gain: real) returns (k: int)
    requires Tenths(target)
    ensures k == RoundHalfUp(target * 10.0 + gain / 10.0) && Tenths(k as real * 0.1)
    ensures k as real * 0.1 > target <==> gain >= 5.0
    ensures k as real * 0.1 > target ==> k as real * 0.1 >= target + 0.1
    ensures 0.0 <= gain < 5.0 ==> k as real * 0.1 == target
  {
    var n := (target * 10.0).Floor;
    k := RoundHalfUp(n as real + gain / 10.0);
    assert target * 10.0 == n as real;
    assert (k as real * 0.1) * 10.0 == k as real;
    assert k > n <==> gain >= 5.0;
  }

  /** A raise moves a target of whole tenths up exactly when target * percent reaches 5. */
  lemma RaiseMovesTarget(target: real, percent: real)
    requires Tenths(target)
    ensures Tenths(NextTarget(target, percent))
    ensures NextTarget(target, percent) > target <==> Gain(target, percent) >= 5.0
    ensures NextTarget(target, percent) > target ==> NextTarget(target, percent) >= target + 0.1
  {
    var gain := NextInTenths(target, percent);
    var k := RoundInTenths(target, gain);
  }

  /** The next target is the tenth nearest to the old one plus the trailing percentage of it, ten when none is set. */
  lemma RaiseAddsPercentage(target: real, percent: real)
    ensures Tenths(NextTarget(target, percent))
    ensures var exact := target + target * (if percent == 0.0 then 10.0 else percent) / 100.0;
      exact - 0.05 < NextTarget(target, percent) <= exact + 0.05
  {
    var gain := NextInTenths(target, percent);
    assert gain == target * (if percent == 0.0 then 10.0 else percent);
    var k := RoundHalfUp(target * 10.0 + gain / 10.0);
    assert (k as real * 0.1) * 10.0 == k as real;
  }

  /** A run of readings until the job squares off. */
  datatype Track = Track(levels: Levels, raises: nat, closed: bool)

  function Read(t: Track, percent: real, points: real): Track {
    if t.closed then t
    else if points > t.levels.target then Track(Raised(t.levels, percent), t.raises + 1, false)
    else if points < t.levels.floor then t.(closed := true)
    else t
  }

  function Follow(start: Levels, percent: real, readings: seq<real>): Track {
    if |readings| == 0 then Track(start, 0, false)
    else Read(Follow(start, percent, readings[..|readings| - 1]), percent, readings[|readings| - 1])
  }

  ghost predicate Ratcheting(l: Levels, percent: real) {
    && l.floor < l.target && Tenths(l.target)
    && percent >= 0.0 && Gain(l.target, percent) >= 5.0
  }

  lemma RaiseKeepsRatcheting(l: Levels, percent: real)
    requires Ratcheting(l, percent)
    ensures Ratcheting(Raised(l, percent), percent)
    ensures Raised(l, percent).target >= l.target + 0.1 && Raised(l, percent).floor == l.target
  {
    RaiseMovesTarget(l.target, percent);
    var next := NextTarget(l.target, percent);
    GrowsWith(l.target, next, EffectivePercent(percent));
  }

  lemma GrowsWith(a: real, b: real, p: real)
    requires a <= b && p >= 0.0 && a * p >= 5.0
    ensures b * p >= 5.0
  {
    assert (b - a) * p >= 0.0;
  }

  /** Over any readings the floor never falls and stays under the target, which gains a tenth per raise. */
  lemma {:induction false} RatchetHolds(start: Levels, percent: real, readings: seq<real>)
    requires Ratcheting(start, percent)
    ensures var t := Follow(start, percent, readings);
      && Ratcheting(t.levels, percent)
      && t.levels.floor >= start.floor
      && t.levels.target >= start.target + t.raises as real * 0.1
  {
    if |readings| > 0 {
      var before := Follow(start, percent, readings[..|readings| - 1]);
      RatchetHolds(start, percent, readings[..|readings| - 1]);
      RaiseKeepsRatcheting(before.levels, percent);
    }
  }

  /**
   * One more reading raises the levels exactly when it beats the target, the floor then being the beaten target, and
   * squares off exactly when it falls below the floor.
   */
  lemma FloorFollowsTarget(start: Levels, percent: real, readings: seq<real>, points: real)
    requires Ratcheting(start, percent)
    ensures var t, u := Follow(start, percent, readings), Follow(start, percent, readings + [points]);
      && u.levels.floor >= t.levels.floor
      && (u.raises > t.raises ==> u.levels.floor == t.levels.target < u.levels.target && t.levels.target < points)
      && (u.raises == t.raises ==> u.levels == t.levels)
      && (u.raises > t.raises <==> !t.closed && points > t.levels.target)
      && (u.closed <==> t.closed || points < t.levels.floor)
  {
    assert (readings + [points])[..|readings|] == readings;
    RatchetHolds(start, percent, readings);
    RaiseKeepsRatcheting(Follow(start, percent, readings).levels, percent);
  }

  /** Bounded readings raise the target at most 10 * (bound - first target) times, rounded up. */
  lemma {:induction false} RaisesAreBounded(start: Levels, percent: real, readings: seq<real>, bound: real)
    requires Ratcheting(start, percent)
    requires forall i :: 0 <= i < |readings| ==> readings[i] <= bound
    ensures var t := Follow(start, percent, readings);
      t.raises <= if bound <= start.target then 0 else Ceil(10.0 * (bound - start.target))
  {
    if |readings| > 0 {
      RaisesAreBounded(start, percent, readings[..|readings| - 1], bound);
      RatchetHolds(start, percent, readings[..|readings| - 1]);
    }
  }

  /**
   * Below that size a raise leaves the target where it was while the floor jumps up to
   * it: the job then squares off on the first reading under its own target.
   */
  lemma SmallTargetCollapses(l: Levels, percent: real)
    requires Tenths(l.target) && 0.0 <= Gain(l.target, percent) < 5.0
    ensures Raised(l, percent) == Levels(l.target, l.target)
  {
    var gain := NextInTenths(l.target, percent);
    var k := RoundInTenths(l.target, gain);
  }

  // ---- the job ----

  datatype Outcome = Terminated | AllCompleted | Retry | RaisedLevels | SquaredOff | SquareOffFailed | Crashed

  datatype Settings = Settings(maxProfit: bool, maxLoss: bool, trailingPercent: real)

  /** What the watcher is told from outside on one run. */
  datatype Surroundings = Surroundings(sessionOver: bool, fills: seq<Fill>, ltp: Quotes, rowReadable: bool, squareOffWorks: bool)

  function CurrentPoints(s: Surroundings): real {
    RoundToStep(StrategyPoints(s.fills + Closing(Aggregate(s.fills), s.ltp)), 0.5)
  }

  /**
   * The verdict of one run. `flat` is whether every symbol nets to zero. A job row that
   * cannot be read is only survivable on a completed book: every other branch reads it.
   */
  function Decide(s: Surroundings, flat: bool, points: real, settings: Settings, levels: Levels): Outcome {
    if s.sessionOver then Terminated
    else if flat then AllCompleted
    else if !s.rowReadable then Crashed
    else if settings.maxProfit && points > levels.target then RaisedLevels
    else if settings.maxLoss && points < levels.floor then (if s.squareOffWorks then SquaredOff else SquareOffFailed)
    else Retry
  }

  /** A run that reads a row with an open position, with a broker that squares off when asked. */
  ghost predicate Reads(s: Surroundings) { !s.sessionOver && !EverySymbolFlat(s.fills) && s.rowReadable && s.squareOffWorks }

  /** The job over successive runs, until it squares off. */
  ghost function Watch(settings: Settings, start: Levels, runs: seq<Surroundings>): Track {
    if |runs| == 0 then Track(start, 0, false)
    else
      var t, s := Watch(settings, start, runs[..|runs| - 1]), runs[|runs| - 1];
      if t.closed then t
      else
        var outcome := Decide(s, EverySymbolFlat(s.fills), CurrentPoints(s), settings, t.levels);
        if outcome == RaisedLevels then Track(Raised(t.levels, settings.trailingPercent), t.raises + 1, false)
        else t.(closed := outcome == SquaredOff)
  }

  function Readings(runs: seq<Surroundings>): seq<real> {
    seq(|runs|, i requires 0 <= i < |runs| => CurrentPoints(runs[i]))
  }

  /** With both limits on, the job's runs follow the ratchet over its readings. */
  lemma {:induction false} WatchFollows(settings: Settings, start: Levels, runs: seq<Surroundings>)
    requires settings.maxProfit && settings.maxLoss && forall i :: 0 <= i < |runs| ==> Reads(runs[i])
    ensures Watch(settings, start, runs) == Follow(start, settings.trailingPercent, Readings(runs))
  {
    if |runs| > 0 {
      WatchFollows(settings, start, runs[..|runs| - 1]);
      assert Readings(runs)[..|runs| - 1] == Readings(runs[..|runs| - 1]);
      assert Reads(runs[|runs| - 1]);
    }
  }

  predicate FellBelow(readings: seq<real>, floor: real) { exists i :: 0 <= i < |readings| && readings[i] < floor }

  lemma OneMoreReading(readings: seq<real>, floor: real)
    requires |readings| > 0
    ensures FellBelow(readings, floor) <==> FellBelow(readings[..|readings| - 1], floor) || readings[|readings| - 1] < floor
  {
    var before := readings[..|readings| - 1];
    assert forall i :: 0 <= i < |before| ==> before[i] == readings[i];
  }

  /**
   * Without the profit limit the levels never move, and the job squares off exactly when some reading falls below
   * the floor and the loss limit is on.
   */
  lemma {:induction false} WithoutProfitLimit(settings: Settings, start: Levels, runs: seq<Surroundings>)
    requires !settings.maxProfit && forall i :: 0 <= i < |runs| ==> Reads(runs[i])
    ensures Watch(settings, start, runs) == Track(start, 0, settings.maxLoss && FellBelow(Readings(runs), start.floor))
  {
    if |runs| > 0 {
      WithoutProfitLimit(settings, start, runs[..|runs| - 1]);
      assert Readings(runs)[..|runs| - 1] == Readings(runs[..|runs| - 1]);
      OneMoreReading(Readings(runs), start.floor);
      assert Reads(runs[|runs| - 1]);
    }
  }

  /** Without the loss limit it never squares off. */
  lemma {:induction false} WithoutLossLimit(settings: Settings, start: Levels, runs: seq<Surroundings>)
    requires !settings.maxLoss
    ensures !Watch(settings, start, runs).closed
  {
    if |runs| > 0 { WithoutLossLimit(settings, start, runs[..|runs| - 1]); }
  }

  /** A reading is the half point nearest to what closing everything at the last prices would make. */
  lemma ReadingIsNearest(s: Surroundings)
    ensures var exact := StrategyPoints(s.fills + Closing(Aggregate(s.fills), s.ltp));
      exact - 0.25 < CurrentPoints(s) <= exact + 0.25
    ensures CurrentPoints(s) * 2.0 == (CurrentPoints(s) * 2.0).Floor as real
  {
    var exact := StrategyPoints(s.fills + Closing(Aggregate(s.fills), s.ltp));
    var k := RoundHalfUp(exact / 0.5);
    assert (k as real * 0.5) * 2.0 == k as real;
  }

  /** The job row: levels, and whether the watcher marked it squared off. */
  class Job {
    const settings: Settings
    var levels: Levels
    var squaredOff: bool
    var currentPoints: real

    constructor (settings: Settings, levels: Levels)
      ensures this.settings == settings && this.levels == levels && !squaredOff
    {
      this.settings := settings;
      this.levels := levels;
      squaredOff := false;
      currentPoints := 0.0;
    }

    method TargetPnL(s: Surroundings) returns (outcome: Outcome)
      modifies this
      ensures outcome == Decide(s, EverySymbolFlat(s.fills), CurrentPoints(s), settings, old(levels))
      ensures squaredOff == (old(squaredOff) || outcome == AllCompleted)
      ensures levels == if outcome == RaisedLevels then Raised(old(levels), settings.trailingPercent) else old(levels)
      ensures currentPoints == if outcome in {Terminated, Crashed} then old(currentPoints) else CurrentPoints(s)
    {
      if s.sessionOver {
        return Terminated;
      }
      var completedOrders := AggregateFillsBySymbol(s.fills);
      var total := MarkToMarket(completedOrders, s.ltp);
      MarkToMarketIsClosingOut(s.fills, s.ltp);
      var points := RoundToStep(total.points, 0.5);
      if total.allCompleted {
        squaredOff := true;
        currentPoints := points;
        return AllCompleted;
      }
      if !s.rowReadable {
        return Crashed;
      }
      currentPoints := points;
      if settings.maxProfit && points > levels.target {
        var newTarget := NextTarget(levels.target, settings.trailingPercent);
        levels := Levels(levels.target, newTarget);
        return RaisedLevels;
      } else if settings.maxLoss && points < levels.floor {
        return if s.squareOffWorks then SquaredOff else SquareOffFailed;
      }
      return Retry;
    }
  }
}
