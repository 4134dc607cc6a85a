/** What holds over all hourly runs of the signal machine: re-evaluation, pausing and pending signals. */
module ChaseSignal {
  import opened Options
  import opened Rounding
  import opened ChaseFill
  import opened ChaseDesk

  function Runs(d: Desk, ws: seq<World>): Desk {
    if |ws| == 0 then d else Tick(Runs(d, ws[..|ws| - 1]), ws[|ws| - 1])
  }

  // ---- one re-evaluation ----

  /** The events of one run: what the log gained. */
  function Events(before: Desk, after: Desk): seq<Event> {
    if |before.log| <= |after.log| then after.log[|before.log|..] else []
  }

  predicate EntryAmong(events: seq<Event>) { exists i :: 0 <= i < |events| && events[i].EntrySent? }

  /** A pending signal that this bar invalidates, on a book that may still enter. */
  predicate Reevaluates(d: Desk, w: World) {
    && Pending(d.row.status) && !BlocksEntries(SettingsOf(w, w.book)) && |w.bars| > 0 && w.hour != 16
    && !SideHasPosition(d.row.status == AWAITING_LONG, Net(d, d.row.symbol))
    && Invalidated(d.row, BarOf(w, d.row.symbol))
  }

  lemma AwaitSignalLogs(d: Desk, w: World)
    requires |w.bars| > 0
    ensures AwaitSignal(d, w).log == d.log
         || (exists o :: AwaitSignal(d, w).log == d.log + [EntrySent(o)])
  {
  }

  /**
   * The run equals withdrawing the signal and then running the same hour again on the
   * waiting book. The cancel is the first event and at most one entry follows it.
   */
  lemma InvalidatedSignalStartsOver(d: Desk, w: World)
    requires Reevaluates(d, w) && w.cancelWorks && WriteOk(d)
    ensures var b := BarOf(w, d.row.symbol);
      && Tick(d, w) == Tick(Withdraw(d, w, b.symbol), w)
      && Withdraw(d, w, b.symbol).row == BackToWaiting(d.row, w.today)
      && var events := Events(d, Tick(d, w));
         && |events| in {1, 2} && events[0] == CancelAsked(b.symbol, EntrySide(d.row.status))
         && (|events| == 2 ==> events[1].EntrySent?)
  {
    var out := Withdraw(d, w, BarOf(w, d.row.symbol).symbol);
    AwaitSignalLogs(out, w);
  }

  // ---- pausing ----

  /** The book is paused or disabled, its bars are its own, and the broker takes cancels. */
  ghost predicate PausedWorld(w: World, book: string) {
    && w.book == book && BlocksEntries(SettingsOf(w, book)) && |w.bars| > 0 && w.cancelWorks
    && forall i :: 0 <= i < |w.bars| ==> w.bars[i].underlying in {None, Some(book)}
  }

  lemma PausedSignalEntersNothing(d: Desk, w: World, book: string)
    requires PausedWorld(w, book)
    ensures AwaitSignal(d, w).log == d.log
    ensures |d.writes| == 0 ==> |AwaitSignal(d, w).writes| == 0
    ensures AwaitSignal(d, w).row.status in {LONG, SHORT} ==>
      d.row.status in {LONG, SHORT} || SideFromNetQty(Net(d, d.row.symbol)).Some?
  {
    assert DefaultBar(w) in w.bars;
  }

  /** From any state a flat paused book waits after at most two runs, and no run sends an entry. */
  lemma TwoRunsToWaiting(d: Desk, first: World, second: World, book: string)
    requires PausedWorld(first, book) && PausedWorld(second, book)
    requires Net(d, d.row.symbol) == 0 && |d.writes| == 0
    ensures var mid := Tick(d, first);
      && |mid.writes| == 0 && !EntryAmong(Events(d, mid))
      && Tick(mid, second).row.status == AWAITING_SIGNAL && |Tick(mid, second).writes| == 0
      && !EntryAmong(Events(mid, Tick(mid, second)))
      && (mid.row.status == AWAITING_SIGNAL ==> Tick(mid, second) == mid)
      && (mid.row.status != AWAITING_SIGNAL ==> InPosition(d.row.status))
  {
    var reset := Write(d, BackToWaiting(d.row, first.today));
    PausedSignalEntersNothing(reset, first, book);
  }

  /** A paused or disabled waiting book does not move, however often it runs. */
  lemma {:induction false} PausedStaysWaiting(d: Desk, ws: seq<World>)
    requires d.row.status == AWAITING_SIGNAL && forall i :: 0 <= i < |ws| ==> BlocksEntries(SettingsOf(ws[i], ws[i].book))
    ensures Runs(d, ws) == d
  {
    if |ws| > 0 { PausedStaysWaiting(d, ws[..|ws| - 1]); }
  }

  // ---- pending signals ----

  /** Whole-rupee readings as the EMA job stores them, with the low not above the high. */
  ghost predicate WholeReading(b: Bar) {
    && b.symbol != "" && b.lowestLow <= b.highestHigh
    && b.ema == b.ema.Floor as real && b.lastClose == b.lastClose.Floor as real
    && b.highestHigh == b.highestHigh.Floor as real && b.lowestLow == b.lowestLow.Floor as real
  }

  ghost predicate WholeReadings(w: World) { forall i :: 0 <= i < |w.bars| ==> WholeReading(w.bars[i]) }

  /** The stored row between runs. */
  ghost predicate Consistent(row: Row) {
    && (row.status == AWAITING_LONG ==>
          row.stop.Some? && row.entryPoint.Some? && row.stop.value <= row.entryPoint.value)
    && (row.status == AWAITING_SHORT ==>
          row.stop.Some? && row.entryPoint.Some? && row.entryPoint.value <= row.stop.value)
    && (row.breach ==> Pending(row.status))
    && (row.symbol != "" ==> row.stop.Some?)
    && (row.status != AWAITING_SIGNAL ==> row.symbol != "")
  }

  lemma RaisedRowIsConsistent(row: Row, b: Bar, long: bool, today: int)
    requires WholeReading(b)
    ensures Consistent(RaisedRow(row, b, long, today))
    ensures long ==> RaisedRow(row, b, long, today).stop.value <= b.ema
    ensures !long ==> RaisedRow(row, b, long, today).stop.value >= b.ema
  {
    if long {
      var low := if b.ema <= b.lowestLow then b.ema else b.lowestLow;
      RoundOfInteger(low, low.Floor);
    } else {
      var high := if b.ema >= b.highestHigh then b.ema else b.highestHigh;
      RoundOfInteger(high, high.Floor);
    }
  }

  function Later(d: Desk): seq<bool> { if |d.writes| == 0 then [] else d.writes[1..] }

  lemma PlaceStopKeepsRow(d: Desk, w: World, symbol: string, side: Side, quantity: nat, stop: real)
    ensures PlaceStop(d, w, symbol, side, quantity, stop).row == d.row
    ensures PlaceStop(d, w, symbol, side, quantity, stop).writes == d.writes
  {
  }

  /** Trailing and promoting are one row write each; the orders behind them leave the row alone. */
  lemma TrailWritesStop(d: Desk, w: World)
    requires |w.bars| > 0
    ensures Trail(d, w).writes == Later(d)
    ensures Trail(d, w).row == if WriteOk(d) then d.row.(stop := Some(TrailedStop(d.row, BarOf(w, d.row.symbol)))) else d.row
  {
    var b := BarOf(w, d.row.symbol);
    var stop := TrailedStop(d.row, b);
    PlaceStopKeepsRow(Write(d, d.row.(stop := Some(stop))), w, b.symbol, ExitSide(d.row.status), FlattenQty(Net(d, b.symbol)), stop);
  }

  /** Adopting a leftover position leaves the stop; a raised signal is no position. */
  lemma AwaitLeavesStop(d: Desk, w: World)
    requires |w.bars| > 0
    ensures InPosition(AwaitSignal(d, w).row.status) ==> AwaitSignal(d, w).row.stop == d.row.stop
  {
  }

  /** In one episode the stored stop moves only at 13:15 on a later day, and then to the tighter of stop and EMA. */
  lemma StopMovesOnlyAtTrail(d: Desk, w: World)
    requires InPosition(d.row.status) && InPosition(Tick(d, w).row.status) && Tick(d, w).row.stop != d.row.stop
    ensures |w.bars| > 0 && w.hour == 13 && d.row.createdOn != w.today && WriteOk(d)
    ensures Tick(d, w).row == d.row.(stop := Some(TrailedStop(d.row, BarOf(w, d.row.symbol))))
  {
    if |w.bars| > 0 {
      if StatusHasPosition(d.row.status, Net(d, d.row.symbol)) {
        TrailWritesStop(d, w);
      } else {
        AwaitLeavesStop(Write(d, BackToWaiting(d.row, w.today)), w);
      }
    }
  }

  lemma PromoteWritesStatus(d: Desk, w: World)
    requires |w.bars| > 0
    ensures Promote(d, w).writes == Later(d)
    ensures Promote(d, w).row == if WriteOk(d)
      then d.row.(status := if d.row.status == AWAITING_LONG then LONG else SHORT, breach := false) else d.row
  {
    var written := Write(d, d.row.(status := if d.row.status == AWAITING_LONG then LONG else SHORT, breach := false));
    PlaceStopKeepsRow(written, w, BarOf(w, d.row.symbol).symbol, ExitSide(d.row.status),
                      FlattenQty(Net(d, d.row.symbol)), StopOr0(d.row));
  }

  lemma AwaitSignalKeepsConsistent(d: Desk, w: World)
    requires |w.bars| > 0 && WholeReadings(w)
    requires Consistent(d.row) || (Consistent(d.row.(status := AWAITING_SIGNAL, breach := false)) && d.row.symbol != "")
    ensures AwaitSignal(d, w).row == d.row || Consistent(AwaitSignal(d, w).row)
  {
    var b := DefaultBar(w);
    assert b in w.bars;
    RaisedRowIsConsistent(d.row, b, true, w.today);
    RaisedRowIsConsistent(d.row, b, false, w.today);
  }

  lemma AwaitFillKeepsConsistent(d: Desk, w: World)
    requires |w.bars| > 0 && WholeReadings(w) && Consistent(d.row) && Pending(d.row.status)
    ensures Consistent(AwaitFill(d, w).row)
  {
    var b := BarOf(w, d.row.symbol);
    if SideHasPosition(d.row.status == AWAITING_LONG, Net(d, d.row.symbol)) {
      PromoteWritesStatus(d, w);
    } else if w.hour == 16 {
    } else if Invalidated(d.row, b) {
      var out := Withdraw(d, w, b.symbol);
      assert out.row == d.row || out.row == BackToWaiting(d.row, w.today);
      AwaitSignalKeepsConsistent(out, w);
    } else {
      assert AwaitFill(d, w).row in {d.row, d.row.(breach := true)};
    }
  }

  lemma TickKeepsConsistent(d: Desk, w: World)
    requires Consistent(d.row) && WholeReadings(w)
    ensures Consistent(Tick(d, w).row)
  {
    if BlocksEntries(SettingsOf(w, w.book)) && !InPosition(d.row.status) {
    } else if |w.bars| == 0 {
    } else if InPosition(d.row.status) {
      TrailWritesStop(d, w);
      AwaitSignalKeepsConsistent(Write(d, BackToWaiting(d.row, w.today)), w);
    } else if d.row.status == AWAITING_SIGNAL {
      AwaitSignalKeepsConsistent(d, w);
    } else {
      AwaitFillKeepsConsistent(d, w);
    }
  }

  /** Over any hours a pending signal keeps its stop on the right side of its entry, and a symbol its stop. */
  lemma {:induction false} RunsKeepConsistent(d: Desk, ws: seq<World>)
    requires Consistent(d.row) && forall i :: 0 <= i < |ws| ==> WholeReadings(ws[i])
    ensures Consistent(Runs(d, ws).row)
  {
    if |ws| > 0 {
      RunsKeepConsistent(d, ws[..|ws| - 1]);
      TickKeepsConsistent(Runs(d, ws[..|ws| - 1]), ws[|ws| - 1]);
    }
  }

  /** A run with bars, working cancels and working writes clears a breach flag raised before it. */
  lemma BreachFlagIsShortLived(d: Desk, w: World)
    requires Consistent(d.row) && d.row.breach
    requires |d.writes| == 0 && w.cancelWorks && |w.bars| > 0
    ensures !Tick(d, w).row.breach
  {
    PromoteWritesStatus(d, w);
    var out := Withdraw(d, w, BarOf(w, d.row.symbol).symbol);
    assert out.row == BackToWaiting(d.row, w.today);
    WaitingRaisesNoFlag(out, w);
  }

  lemma WaitingRaisesNoFlag(d: Desk, w: World)
    requires |w.bars| > 0 && !d.row.breach
    ensures !AwaitSignal(d, w).row.breach
  {
  }

  /** So of two successive such runs the flag is up after at most one. */
  lemma BreachFlagNeverTwice(d: Desk, first: World, second: World)
    requires Consistent(d.row) && WholeReadings(first) && |d.writes| == 0
    requires first.cancelWorks && second.cancelWorks && |second.bars| > 0
    ensures !(Tick(d, first).row.breach && Tick(Tick(d, first), second).row.breach)
  {
    TickKeepsConsistent(d, first);
    WritesStayUsedUp(d, first);
    if Tick(d, first).row.breach {
      BreachFlagIsShortLived(Tick(d, first), second);
    }
  }

  lemma WritesStayUsedUp(d: Desk, w: World)
    requires |d.writes| == 0
    ensures |Tick(d, w).writes| == 0
  {
    if |w.bars| > 0 {
      TrailWritesStop(d, w);
      PromoteWritesStatus(d, w);
      AwaitSignalWritesOnce(d, w);
      AwaitSignalWritesOnce(Write(d, BackToWaiting(d.row, w.today)), w);
      AwaitSignalWritesOnce(Withdraw(d, w, BarOf(w, d.row.symbol).symbol), w);
    }
  }

  lemma AwaitSignalWritesOnce(d: Desk, w: World)
    requires |w.bars| > 0 && |d.writes| == 0
    ensures |AwaitSignal(d, w).writes| == 0
  {
  }

  /** The kill switch writes the status alone: it leaves the row consistent exactly when no breach flag was up. */
  lemma KillLeavesBreachFlag(row: Row)
    requires Consistent(row)
    ensures Consistent(row.(status := AWAITING_SIGNAL)) <==> !row.breach
  {
  }

  /** The whole rupee nearest to x, halves going up. */
  predicate NearestRupee(stop: Option<real>, x: real) {
    stop.Some? && stop.value == stop.value.Floor as real && x - 0.5 < stop.value <= x + 0.5
  }

  /** The pending signal of this bar: entered at its high or low, the stop on the other side of it and of the EMA. */
  predicate SignalOf(row: Row, b: Bar, long: bool, today: int) {
    if long then
      && row == Row(AWAITING_LONG, b.symbol, row.stop, Some(b.highestHigh), false, today)
      && NearestRupee(row.stop, if b.ema <= b.lowestLow then b.ema else b.lowestLow)
    else
      && row == Row(AWAITING_SHORT, b.symbol, row.stop, Some(b.lowestLow), false, today)
      && NearestRupee(row.stop, if b.ema >= b.highestHigh then b.ema else b.highestHigh)
  }

  lemma RaisedRowIsOfTheBar(row: Row, b: Bar, long: bool, today: int)
    ensures SignalOf(RaisedRow(row, b, long, today), b, long, today)
  {
  }

  lemma RowOfWaitingHour(d: Desk, w: World)
    requires d.row.status == AWAITING_SIGNAL && !BlocksEntries(SettingsOf(w, w.book)) && |w.bars| > 0 && w.hour != 16
    requires Net(d, d.row.symbol) == 0 && WriteOk(d)
    ensures var b, buffer := w.bars[if |w.bars| == 1 then 0 else 1], SettingsOf(w, w.book).bufferPercent;
      Tick(d, w).row == if b.lastClose > LongTolerance(b, buffer) then RaisedRow(d.row, b, true, w.today)
                        else if b.lastClose < ShortTolerance(b, buffer) then RaisedRow(d.row, b, false, w.today)
                        else d.row
  {
  }

  /** Raised long exactly above the band, short exactly below it, else unchanged. */
  predicate JudgedBy(before: Row, after: Row, b: Bar, bufferPercent: real, today: int) {
    var margin := b.ema * (bufferPercent / 100.0);
    && (after.status == AWAITING_LONG <==> b.lastClose - b.ema > margin)
    && (after.status == AWAITING_SHORT <==> b.ema - b.lastClose > margin)
    && (Pending(after.status) ==> SignalOf(after, b, after.status == AWAITING_LONG, today))
    && (!Pending(after.status) ==> after == before)
  }

  lemma RaisedIsJudged(before: Row, after: Row, b: Bar, buffer: real, today: int)
    requires before.status == AWAITING_SIGNAL && buffer >= 0.0 && b.ema >= 0.0
    requires after == if b.lastClose > LongTolerance(b, buffer) then RaisedRow(before, b, true, today)
                      else if b.lastClose < ShortTolerance(b, buffer) then RaisedRow(before, b, false, today)
                      else before
    ensures JudgedBy(before, after, b, buffer, today)
  {
    BandAroundEma(b, buffer);
    RaisedRowIsOfTheBar(before, b, true, today);
    RaisedRowIsOfTheBar(before, b, false, today);
  }

  /**
   * A waiting flat book raises a signal exactly when the last close leaves the band around the EMA,
   * upwards long and downwards short, on the next month's contract whenever two are loaded. A long is to be
   * entered at the bar's high with its stop at the lesser of EMA and low, a short at the low with its stop
   * at the greater of EMA and high.
   */
  lemma SignalIsRaisedExactly(d: Desk, w: World)
    requires d.row.status == AWAITING_SIGNAL && !BlocksEntries(SettingsOf(w, w.book)) && |w.bars| > 0 && w.hour != 16
    requires Net(d, d.row.symbol) == 0 && WriteOk(d) && SettingsOf(w, w.book).bufferPercent >= 0.0
    requires forall i :: 0 <= i < |w.bars| ==> w.bars[i].ema >= 0.0
    ensures JudgedBy(d.row, Tick(d, w).row, w.bars[if |w.bars| == 1 then 0 else 1], SettingsOf(w, w.book).bufferPercent, w.today)
  {
    RowOfWaitingHour(d, w);
    RaisedIsJudged(d.row, Tick(d, w).row, w.bars[if |w.bars| == 1 then 0 else 1], SettingsOf(w, w.book).bufferPercent, w.today);
  }

  /**
   * An unfilled pending signal is flagged exactly when the close has crossed the whole band to
   * its far side without passing the stop.
   */
  lemma BreachIsFlaggedExactly(d: Desk, w: World)
    requires Pending(d.row.status) && !d.row.breach && !BlocksEntries(SettingsOf(w, w.book)) && |w.bars| > 0 && w.hour != 16
    requires !SideHasPosition(d.row.status == AWAITING_LONG, Net(d, d.row.symbol)) && WriteOk(d)
    requires SettingsOf(w, w.book).bufferPercent >= 0.0 && BarOf(w, d.row.symbol).ema >= 0.0
    ensures var b := BarOf(w, d.row.symbol);
      var margin := b.ema * (SettingsOf(w, w.book).bufferPercent / 100.0);
      Tick(d, w).row.breach <==>
        if d.row.status == AWAITING_LONG then b.ema - b.lastClose > margin && b.lastClose >= StopOr0(d.row)
        else b.lastClose - b.ema > margin && b.lastClose <= StopOr0(d.row)
  {
    var b := BarOf(w, d.row.symbol);
    BandAroundEma(b, SettingsOf(w, w.book).bufferPercent);
    if Invalidated(d.row, b) {
      var out := Withdraw(d, w, b.symbol);
      assert !out.row.breach;
      WaitingRaisesNoFlag(out, w);
    }
  }

  lemma BandAroundEma(b: Bar, buffer: real)
    requires b.ema >= 0.0 && 0.0 <= buffer
    ensures ShortTolerance(b, buffer) <= b.ema <= LongTolerance(b, buffer)
    ensures LongTolerance(b, buffer) == b.ema + b.ema * (buffer / 100.0)
    ensures ShortTolerance(b, buffer) == b.ema - b.ema * (buffer / 100.0)
  {
    var f := buffer / 100.0;
    assert b.ema * f >= 0.0;
    assert b.ema * (1.0 + f) == b.ema + b.ema * f;
    assert b.ema * (1.0 - f) == b.ema - b.ema * f;
  }

  /**
   * The bar that raised a signal, replayed, neither invalidates it nor marks a breach:
   * until the entry fills, the second run only retries the entry.
   */
  lemma RaisingBarIsHarmless(d: Desk, w: World, again: Desk)
    requires d.row.status == AWAITING_SIGNAL && Pending(Tick(d, w).row.status)
    requires again.row == Tick(d, w).row
    requires |w.bars| > 0 && WholeReadings(w) && DefaultBar(w).ema >= 0.0 && SettingsOf(w, w.book).bufferPercent >= 0.0
    requires BarOf(w, DefaultBar(w).symbol) == DefaultBar(w)
    requires !SideHasPosition(again.row.status == AWAITING_LONG, Net(again, again.row.symbol))
    ensures Tick(again, w).row == again.row
    ensures Tick(again, w) == PlaceEntry(again, w, DefaultBar(w), EntrySide(again.row.status), again.row.entryPoint.value)
  {
    var b, buffer := DefaultBar(w), SettingsOf(w, w.book).bufferPercent;
    assert b in w.bars;
    BandAroundEma(b, buffer);
    RaisedRowIsConsistent(d.row, b, true, w.today);
    RaisedRowIsConsistent(d.row, b, false, w.today);
    var long := again.row.status == AWAITING_LONG;
    assert again.row == RaisedRow(d.row, b, long, w.today);
    assert if long then b.lastClose > LongTolerance(b, buffer) else b.lastClose < ShortTolerance(b, buffer);
  }

  /** A waiting book takes up a position, with its old stop and contract, exactly when the row still names the contract held. */
  lemma WaitingBookAdoptsExactly(d: Desk, w: World)
    requires d.row.status == AWAITING_SIGNAL && WriteOk(d) && |w.bars| > 0 && w.hour != 16
    requires !BlocksEntries(SettingsOf(w, w.book))
    ensures InPosition(Tick(d, w).row.status) <==> Net(d, d.row.symbol) != 0
    ensures Net(d, d.row.symbol) != 0 ==>
      && StatusHasPosition(Tick(d, w).row.status, Net(d, d.row.symbol))
      && Tick(d, w).row == d.row.(status := Tick(d, w).row.status, breach := false) && Tick(d, w).orders == d.orders
  {
  }

  /**
   * The kill pauses every book and then writes the status alone. While the book stays paused no hour
   * moves it, so an open position is left as it is; the first open hour after it resumes takes the
   * position up again with its old stop. A reset drops the contract, and no hour adopts the position.
   */
  lemma KilledBookComesBack(d: Desk, paused: seq<World>, later: Desk, w: World, cleared: Row)
    requires InPosition(d.row.status) && forall i :: 0 <= i < |paused| ==> BlocksEntries(SettingsOf(paused[i], paused[i].book))
    requires var killed := d.(row := d.row.(status := AWAITING_SIGNAL)); later.row == Runs(killed, paused).row
    requires StatusHasPosition(d.row.status, Net(later, d.row.symbol)) && WriteOk(later)
    requires |w.bars| > 0 && w.hour != 16 && !BlocksEntries(SettingsOf(w, w.book))
    requires cleared.status == AWAITING_SIGNAL && cleared.symbol == ""
    ensures var killed := d.(row := d.row.(status := AWAITING_SIGNAL)); Runs(killed, paused) == killed
    ensures Tick(later, w).row == d.row.(breach := false)
    ensures !InPosition(Tick(later.(row := cleared), w).row.status)
  {
    PausedStaysWaiting(d.(row := d.row.(status := AWAITING_SIGNAL)), paused);
    WaitingBookAdoptsExactly(later, w);
    WaitingBookAdoptsExactly(later.(row := cleared), w);
  }
}
