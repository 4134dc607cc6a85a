/**
 * What one hourly run does to the row, to the book and to the log, read off the stored row, the bar and
 * the broker: when a signal ends, at which price it is entered, and when an entry goes out.
 */
module ChaseHours {
  import opened Options
  import opened ChaseFill
  import opened ChaseDesk
  import ChaseSignal

  /** The book is known, enabled and not paused. */
  predicate Running(w: World, book: string) {
    book in w.settings && w.settings[book].enabled && !w.settings[book].paused
  }

  /** A pending signal whose contract is not held on its side. */
  predicate Unfilled(d: Desk) {
    || (d.row.status == AWAITING_LONG && Net(d, d.row.symbol) <= 0)
    || (d.row.status == AWAITING_SHORT && Net(d, d.row.symbol) >= 0)
  }

  /** `b` is the bar of the row's own contract. */
  ghost predicate OwnBar(d: Desk, w: World, b: Bar) {
    b in w.bars && b.symbol == d.row.symbol && forall c :: c in w.bars && c.symbol == d.row.symbol ==> c == b
  }

  lemma {:induction false} OwnBarIsFound(bars: seq<Bar>, b: Bar, default: Bar)
    requires b in bars && forall c :: c in bars && c.symbol == b.symbol ==> c == b
    ensures FindBar(bars, b.symbol, default) == b
  {
    assert bars[0] in bars;
    if bars[0].symbol != b.symbol { OwnBarIsFound(bars[1..], b, default); }
  }

  lemma OwnBarIsUsed(d: Desk, w: World, b: Bar)
    requires OwnBar(d, w, b)
    ensures |w.bars| > 0 && BarOf(w, d.row.symbol) == b
  {
    OwnBarIsFound(w.bars, b, DefaultBar(w));
  }

  // ---- how a pending signal ends ----

  /** At 16:15 an unfilled signal is dropped: its row keeps stop, entry and contract, and no order is touched. */
  lemma UnfilledSignalEndsAtClose(d: Desk, w: World)
    requires Unfilled(d) && Running(w, w.book) && |w.bars| > 0 && w.hour == 16 && WriteOk(d)
    ensures Tick(d, w).row == d.row.(status := AWAITING_SIGNAL, breach := false, createdOn := w.today)
    ensures Tick(d, w).orders == d.orders && Tick(d, w).log == d.log && Tick(d, w).net == d.net
  {
  }

  /** So no sequence of hours that ends with a 16:15 run, writes and cancels working, leaves a signal pending overnight. */
  lemma {:induction false} NothingPendsOvernight(d: Desk, ws: seq<World>, w: World)
    requires |d.writes| == 0 && |w.bars| > 0 && w.hour == 16 && w.cancelWorks
    ensures !Pending(ChaseSignal.Runs(d, ws + [w]).row.status)
  {
    WritesStayUsedUp(d, ws);
    assert (ws + [w])[..|ws|] == ws;
    ClosingHourEndsSignal(ChaseSignal.Runs(d, ws), w);
  }

  lemma {:induction false} WritesStayUsedUp(d: Desk, ws: seq<World>)
    requires |d.writes| == 0
    ensures |ChaseSignal.Runs(d, ws).writes| == 0
  {
    if |ws| > 0 {
      WritesStayUsedUp(d, ws[..|ws| - 1]);
      ChaseSignal.WritesStayUsedUp(ChaseSignal.Runs(d, ws[..|ws| - 1]), ws[|ws| - 1]);
    }
  }

  lemma ClosingHourEndsSignal(d: Desk, w: World)
    requires |d.writes| == 0 && |w.bars| > 0 && w.hour == 16 && w.cancelWorks
    ensures !Pending(Tick(d, w).row.status)
  {
    ChaseSignal.PromoteWritesStatus(d, w);
    ChaseSignal.TrailWritesStop(d, w);
  }

  /** The close has passed the stored stop. */
  predicate PastStop(row: Row, close: real) {
    var stop := if row.stop.Some? then row.stop.value else 0.0;
    (row.status == AWAITING_LONG && close < stop) || (row.status == AWAITING_SHORT && close > stop)
  }

  function SideOf(long: bool): Side { if long then BUY else SELL }

  /**
   * An unfilled signal outlives an hour, its row the same but for the flag and no cancel asked, exactly when
   * the hour is not 16:15, no flag was up and the close has not passed the stop.
   */
  lemma SignalStandsExactly(d: Desk, w: World, b: Bar)
    requires Unfilled(d) && Running(w, w.book) && WriteOk(d) && OwnBar(d, w, b)
    ensures var t := Tick(d, w);
      t.row == d.row.(breach := t.row.breach) && CancelAsked(b.symbol, SideOf(d.row.status == AWAITING_LONG)) !in ChaseSignal.Events(d, t)
      <==> w.hour != 16 && !d.row.breach && !PastStop(d.row, b.lastClose)
  {
    OwnBarIsUsed(d, w, b);
    if w.hour != 16 && Invalidated(d.row, b) {
      WithdrawalIsLogged(d, w, b);
    }
  }

  lemma WithdrawalIsLogged(d: Desk, w: World, b: Bar)
    requires Unfilled(d) && Running(w, w.book) && WriteOk(d) && OwnBar(d, w, b) && w.hour != 16 && Invalidated(d.row, b)
    ensures CancelAsked(b.symbol, SideOf(d.row.status == AWAITING_LONG)) in ChaseSignal.Events(d, Tick(d, w))
  {
    OwnBarIsUsed(d, w, b);
    var asked := CancelAsked(b.symbol, SideOf(d.row.status == AWAITING_LONG));
    var out := Withdraw(d, w, b.symbol);
    assert out.log == d.log + [asked];
    ChaseSignal.AwaitSignalLogs(out, w);
    assert Tick(d, w).log[|d.log|] == asked;
    assert ChaseSignal.Events(d, Tick(d, w))[0] == asked;
  }

  /**
   * What ends the signal cancels its waiting order: the first untriggered order of that contract and side is
   * cancelled, every other one is as it was.
   */
  lemma WithdrawnOrderIsCancelled(d: Desk, w: World, b: Bar, k: nat)
    requires Unfilled(d) && Running(w, w.book) && WriteOk(d) && OwnBar(d, w, b) && w.hour != 16 && w.cancelWorks
    requires d.row.breach || PastStop(d.row, b.lastClose)
    requires k < |d.orders| && PendingTrigger(b.symbol, SideOf(d.row.status == AWAITING_LONG))(d.orders[k])
    requires forall i :: 0 <= i < k ==> !PendingTrigger(b.symbol, SideOf(d.row.status == AWAITING_LONG))(d.orders[i])
    ensures d.orders[k := d.orders[k].(status := CANCELLED)] <= Tick(d, w).orders
  {
    OwnBarIsUsed(d, w, b);
    FirstIs(d.orders, PendingTrigger(b.symbol, SideOf(d.row.status == AWAITING_LONG)), k);
    var out := Withdraw(d, w, b.symbol);
    assert out.orders == d.orders[k := d.orders[k].(status := CANCELLED)];
    AwaitOnlyAppends(out, w);
  }

  lemma FirstIs(orders: seq<Order>, p: Order -> bool, k: nat)
    requires k < |orders| && p(orders[k]) && forall i :: 0 <= i < k ==> !p(orders[i])
    ensures FirstWhere(orders, p) == k
  {
  }

  lemma AwaitOnlyAppends(d: Desk, w: World)
    requires |w.bars| > 0
    ensures d.orders <= AwaitSignal(d, w).orders
  {
  }

  /** A paused or disabled book asks once to cancel its pending order and waits; nothing is entered. */
  lemma PausedSignalIsWithdrawn(d: Desk, w: World)
    requires Pending(d.row.status) && !Running(w, w.book) && |w.bars| > 0 && d.row.symbol != "" && w.cancelWorks && WriteOk(d)
    ensures var t, side := Tick(d, w), SideOf(d.row.status == AWAITING_LONG);
      && t.row == d.row.(status := AWAITING_SIGNAL, breach := false, createdOn := w.today)
      && t.log == d.log + [CancelAsked(d.row.symbol, side)] && |t.orders| == |d.orders|
      && forall i :: 0 <= i < |d.orders| ==>
           t.orders[i] == if PendingTrigger(d.row.symbol, side)(d.orders[i])
                             && (forall j :: 0 <= j < i ==> !PendingTrigger(d.row.symbol, side)(d.orders[j]))
                          then d.orders[i].(status := CANCELLED) else d.orders[i]
  {
  }

  /** A filled signal becomes the position it asked for, with its stop, contract and day. */
  lemma FilledSignalIsPromoted(d: Desk, w: World)
    requires Pending(d.row.status) && !Unfilled(d) && Running(w, w.book) && |w.bars| > 0 && WriteOk(d)
    ensures Tick(d, w).row == d.row.(status := if d.row.status == AWAITING_LONG then LONG else SHORT, breach := false)
  {
    ChaseSignal.PromoteWritesStatus(d, w);
  }

  // ---- holding a position ----

  /** A held position is left alone, row, orders and log, at every hour but 13:15 of a later day. */
  lemma HeldPositionRests(d: Desk, w: World)
    requires (d.row.status == LONG && Net(d, d.row.symbol) > 0) || (d.row.status == SHORT && Net(d, d.row.symbol) < 0)
    requires w.hour != 13 || d.row.createdOn == w.today
    ensures Tick(d, w) == d
  {
  }

  /** LONG or SHORT without that position starts the same hour over as a waiting book. */
  lemma PhantomStartsOver(d: Desk, w: World)
    requires (d.row.status == LONG && Net(d, d.row.symbol) <= 0) || (d.row.status == SHORT && Net(d, d.row.symbol) >= 0)
    requires Running(w, w.book) && |w.bars| > 0 && WriteOk(d)
    ensures var reset := Write(d, d.row.(status := AWAITING_SIGNAL, breach := false, createdOn := w.today));
      reset.row.status == AWAITING_SIGNAL && Tick(d, w) == Tick(reset, w)
  {
  }

  /**
   * A 13:15 run on a later day moves the stored stop to the EMA when that is tighter and leaves it otherwise;
   * nothing else of the row changes.
   */
  lemma TrailReachesEma(d: Desk, w: World, b: Bar)
    requires (d.row.status == LONG && Net(d, d.row.symbol) > 0) || (d.row.status == SHORT && Net(d, d.row.symbol) < 0)
    requires OwnBar(d, w, b) && w.hour == 13 && d.row.createdOn != w.today && WriteOk(d) && d.row.stop.Some?
    ensures Tick(d, w).row == d.row.(stop := Tick(d, w).row.stop) && Tick(d, w).row.stop.Some?
    ensures var from, to := d.row.stop.value, Tick(d, w).row.stop.value;
      to in {from, b.ema} && if d.row.status == LONG then to >= from && to >= b.ema else to <= from && to <= b.ema
  {
    OwnBarIsUsed(d, w, b);
    ChaseSignal.TrailWritesStop(d, w);
  }

  // ---- when an entry goes out ----

  /** No refusal applies: a future of a running book with lots, not held on that side, nothing working there, and the broker accepts. */
  predicate EntryGoesOut(d: Desk, w: World, b: Bar, long: bool) {
    && b.underlying.Some? && Running(w, b.underlying.value) && w.settings[b.underlying.value].lots > 0
    && (if long then Net(d, b.symbol) <= 0 else Net(d, b.symbol) >= 0)
    && w.ordersReadable && (b.symbol, SideOf(long)) !in w.ledgerEntries
    && (forall i :: 0 <= i < |d.orders| && d.orders[i].symbol == b.symbol && d.orders[i].side == SideOf(long) ==>
          d.orders[i].status in {COMPLETE, CANCELLED, REJECTED})
    && w.entryAccepted
  }

  /** All lots of the contract, waiting at `point` with its limit the offset beyond, or at market when the last price is there. */
  predicate EntryAt(o: Order, w: World, b: Bar, long: bool, point: real)
    requires b.underlying.Some? && b.underlying.value in w.settings
  {
    var s, ltp := w.settings[b.underlying.value], if b.symbol in w.ltp then w.ltp[b.symbol] else 0.0;
    && o.symbol == b.symbol && o.side == SideOf(long) && o.purpose == ENTRY && o.chaseTag && o.filled == 0
    && o.quantity == s.lots * b.lotSize
    && if (if long then ltp >= point else ltp <= point) then o.kind == MARKET && o.status == OPEN
       else o.kind == SL && o.status == TRIGGER_PENDING && o.trigger == point
            && o.limit == if long then point + s.entryLimitOffset else point - s.entryLimitOffset
  }

  /** The run adds exactly that entry to the book and to the log. */
  ghost predicate Enters(before: Desk, after: Desk, w: World, b: Bar, long: bool, point: real)
    requires b.underlying.Some? && b.underlying.value in w.settings
  {
    exists o :: EntryAt(o, w, b, long, point) && after.orders == before.orders + [o] && after.log == before.log + [EntrySent(o)]
  }

  lemma EntryCall(d: Desk, w: World, b: Bar, long: bool, point: real)
    ensures var t := PlaceEntry(d, w, b, SideOf(long), point);
      if EntryGoesOut(d, w, b, long) then Enters(d, t, w, b, long, point) else t == d
  {
    if EntryGoesOut(d, w, b, long) {
      var s := SettingsOf(w, b.underlying.value);
      var o := EntryOrder(w, b, SideOf(long), point, EntryQty(s, b), s.entryLimitOffset);
      assert EntryAt(o, w, b, long, point);
    }
  }

  /** The bar a waiting book is judged by: the next month's when two are loaded. */
  function JudgedBar(w: World): Bar
    requires |w.bars| > 0
  {
    w.bars[if |w.bars| == 1 then 0 else 1]
  }

  /** The close has left the band around the EMA on that side. */
  predicate LeavesBand(w: World, b: Bar, long: bool)
    requires w.book in w.settings
  {
    (if long then b.lastClose - b.ema else b.ema - b.lastClose) > b.ema * (w.settings[w.book].bufferPercent / 100.0)
  }

  lemma BandSideIsRaised(d: Desk, w: World, long: bool)
    requires d.row.status == AWAITING_SIGNAL && Running(w, w.book) && |w.bars| > 0 && w.hour != 16
    requires Net(d, d.row.symbol) == 0 && w.settings[w.book].bufferPercent >= 0.0 && JudgedBar(w).ema >= 0.0
    requires LeavesBand(w, JudgedBar(w), long)
    ensures Tick(d, w) == Raise(d, w, JudgedBar(w), long)
  {
    ChaseSignal.BandAroundEma(JudgedBar(w), w.settings[w.book].bufferPercent);
  }

  /**
   * An hour that raises a signal sends its entry at the bar's high, a short's at its low, exactly when no
   * refusal applies and the broker accepts; otherwise it sends nothing.
   */
  lemma RaisedEntryGoesOutExactly(d: Desk, w: World, long: bool)
    requires d.row.status == AWAITING_SIGNAL && Running(w, w.book) && |w.bars| > 0 && w.hour != 16
    requires Net(d, d.row.symbol) == 0 && WriteOk(d) && w.settings[w.book].bufferPercent >= 0.0 && JudgedBar(w).ema >= 0.0
    requires LeavesBand(w, JudgedBar(w), long)
    ensures var b, t := JudgedBar(w), Tick(d, w);
      && t.row.status == (if long then AWAITING_LONG else AWAITING_SHORT)
      && if EntryGoesOut(d, w, b, long) then Enters(d, t, w, b, long, if long then b.highestHigh else b.lowestLow)
         else t.orders == d.orders && t.log == d.log
  {
    var b := JudgedBar(w);
    BandSideIsRaised(d, w, long);
    EntryCall(Write(d, RaisedRow(d.row, b, long, w.today)), w, b, long, if long then b.highestHigh else b.lowestLow);
  }

  /** At 16:15 a waiting book raises nothing and takes no position up. */
  lemma WaitingBookRestsAtClose(d: Desk, w: World)
    requires d.row.status == AWAITING_SIGNAL && w.hour == 16
    ensures Tick(d, w) == d
  {
  }

  /** A waiting book that raises nothing sends nothing. */
  lemma QuietHourSendsNothing(d: Desk, w: World)
    requires d.row.status == AWAITING_SIGNAL && !Pending(Tick(d, w).row.status)
    ensures Tick(d, w).orders == d.orders && Tick(d, w).log == d.log
  {
  }

  /** The close has crossed the whole band to its far side. */
  predicate CrossedBand(w: World, b: Bar, long: bool)
    requires w.book in w.settings
  {
    LeavesBand(w, b, !long)
  }

  /**
   * An hour that leaves a signal standing retries its entry at the stored point, exactly when no refusal
   * applies and the broker accepts and the close has not crossed the band; otherwise it sends nothing.
   */
  lemma RetriedEntryGoesOutExactly(d: Desk, w: World, b: Bar)
    requires Unfilled(d) && Running(w, w.book) && OwnBar(d, w, b) && w.hour != 16 && d.row.entryPoint.Some?
    requires !d.row.breach && !PastStop(d.row, b.lastClose) && w.settings[w.book].bufferPercent >= 0.0 && b.ema >= 0.0
    ensures var t, long := Tick(d, w), d.row.status == AWAITING_LONG;
      if EntryGoesOut(d, w, b, long) && !CrossedBand(w, b, long) then Enters(d, t, w, b, long, d.row.entryPoint.value)
      else t.orders == d.orders && t.log == d.log
  {
    OwnBarIsUsed(d, w, b);
    ChaseSignal.BandAroundEma(b, w.settings[w.book].bufferPercent);
    EntryCall(d, w, b, d.row.status == AWAITING_LONG, d.row.entryPoint.value);
  }
}
