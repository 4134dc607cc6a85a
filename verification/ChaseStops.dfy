/**
 * What the entry and stop orders themselves guarantee: a trigger order still waits for its
 * trigger and its limit gives way, a stop keeping call leaves the position covered, and the
 * hourly and the minute entry guards (lib/chaseSignal.ts) compared.
 */
module ChaseStops {
  import opened Options
  import opened Rounding
  import opened ChaseFill
  import opened ChaseDesk
  import ChaseOrders
  import ChaseSignal

  // ---- orders as they are sent ----

  /** A waiting order whose trigger has not traded, and whose limit lies beyond the trigger on the paying side. */
  predicate StillWaits(o: Order, ltp: real, room: real) {
    if o.side == BUY then ltp <= o.trigger && o.limit == o.trigger + room
    else ltp >= o.trigger && o.limit == o.trigger - room
  }

  /** A stop waits exactly while the price is on its safe side, its limit five rupees beyond; otherwise the exit goes at the last price. */
  lemma ExitWaitsExactly(symbol: string, side: Side, quantity: nat, stop: real, ltp: real)
    ensures var o := ExitOrder(symbol, side, quantity, stop, ltp);
      && o.side == side && o.quantity == quantity && o.symbol == symbol && o.purpose != ENTRY
      && (o.kind == SL ==> o.trigger == stop && StillWaits(o, ltp, 5.0))
      && (o.kind != SL ==> o.kind == LIMIT && o.limit == ltp)
      && (o.kind == SL <==> if side == SELL then stop <= ltp else ltp <= stop)
  {
  }

  function LtpOf(w: World, symbol: string): real { if symbol in w.ltp then w.ltp[symbol] else 0.0 }

  /** An order for the row's pending signal: it waits at the stored entry point with the offset as room, or the price is there already. */
  predicate AtEntryPoint(row: Row, o: Order, ltp: real, offset: real) {
    && Pending(row.status) && row.entryPoint.Some? && o.side == EntrySide(row.status) && o.purpose == ENTRY && o.filled == 0
    && (var reached := if o.side == BUY then ltp >= row.entryPoint.value else ltp <= row.entryPoint.value;
        if reached then o.kind == MARKET
        else o.kind == SL && o.trigger == row.entryPoint.value && StillWaits(o, ltp, offset))
  }

  /** At the full size its book asks for, of a loaded contract of a book that may enter. */
  ghost predicate FollowsSignal(row: Row, w: World, o: Order) {
    exists b :: b in w.bars && b.symbol == o.symbol && b.underlying.Some?
      && !BlocksEntries(SettingsOf(w, b.underlying.value)) && o.quantity == EntryQty(SettingsOf(w, b.underlying.value), b)
      && AtEntryPoint(row, o, LtpOf(w, o.symbol), SettingsOf(w, b.underlying.value).entryLimitOffset)
  }

  lemma PlacedEntryFollows(d: Desk, w: World, b: Bar, trigger: real)
    requires b in w.bars && Pending(d.row.status) && d.row.entryPoint == Some(trigger)
    ensures var after := PlaceEntry(d, w, b, EntrySide(d.row.status), trigger);
      after.log == d.log || (exists o :: after.log == d.log + [EntrySent(o)] && FollowsSignal(d.row, w, o))
    ensures PlaceEntry(d, w, b, EntrySide(d.row.status), trigger).row == d.row
  {
    var side := EntrySide(d.row.status);
    if MayEnter(d, w, b, side) && w.entryAccepted {
      var s := SettingsOf(w, b.underlying.value);
      var o := EntryOrder(w, b, side, trigger, EntryQty(s, b), s.entryLimitOffset);
      assert FollowsSignal(d.row, w, o);
    }
  }

  lemma AwaitEntryFollows(d: Desk, w: World)
    requires |w.bars| > 0
    ensures AwaitSignal(d, w).log == d.log
         || (exists o :: AwaitSignal(d, w).log == d.log + [EntrySent(o)] && FollowsSignal(AwaitSignal(d, w).row, w, o))
  {
    var b := DefaultBar(w);
    if WriteOk(d) {
      PlacedEntryFollows(Write(d, RaisedRow(d.row, b, true, w.today)), w, b, b.highestHigh);
      PlacedEntryFollows(Write(d, RaisedRow(d.row, b, false, w.today)), w, b, b.lowestLow);
    }
  }

  /**
   * Whatever branch an hourly run takes, an entry it sends belongs to the signal it leaves stored: its side,
   * the full size, waiting at the stored entry point with its limit the offset beyond, or at market when
   * the price is already there.
   */
  lemma SentEntryFollowsSignal(d: Desk, w: World, i: nat)
    requires Pending(d.row.status) ==> d.row.entryPoint.Some?
    requires var events := ChaseSignal.Events(d, Tick(d, w)); i < |events| && events[i].EntrySent?
    ensures FollowsSignal(Tick(d, w).row, w, ChaseSignal.Events(d, Tick(d, w))[i].order)
  {
    if BlocksEntries(SettingsOf(w, w.book)) && !InPosition(d.row.status) {
    } else if |w.bars| == 0 {
    } else if InPosition(d.row.status) {
      AwaitEntryFollows(Write(d, BackToWaiting(d.row, w.today)), w);
    } else if d.row.status == AWAITING_SIGNAL {
      AwaitEntryFollows(d, w);
    } else {
      FillEntryFollows(d, w);
    }
  }

  /** Every entry event that `after` adds to the log follows its stored signal. */
  ghost predicate NewEntriesFollow(before: Desk, after: Desk, w: World) {
    && |before.log| <= |after.log|
    && forall i :: |before.log| <= i < |after.log| && after.log[i].EntrySent? ==> FollowsSignal(after.row, w, after.log[i].order)
  }

  lemma FillEntryFollows(d: Desk, w: World)
    requires |w.bars| > 0 && Pending(d.row.status) && d.row.entryPoint.Some?
    ensures NewEntriesFollow(d, AwaitFill(d, w), w)
  {
    var b := BarOf(w, d.row.symbol);
    ChaseOrders.BarIsListed(w.bars, d.row.symbol, DefaultBar(w));
    if SideHasPosition(d.row.status == AWAITING_LONG, Net(d, d.row.symbol)) {
      PromotionSendsNoEntry(d, w);
    } else if w.hour == 16 {
    } else if Invalidated(d.row, b) {
      var out := Withdraw(d, w, b.symbol);
      assert out.log == d.log + [CancelAsked(b.symbol, EntrySide(d.row.status))];
      AwaitEntryFollows(out, w);
    } else if CrossesBack(d.row, b, SettingsOf(w, w.book).bufferPercent) {
    } else {
      PlacedEntryFollows(d, w, b, d.row.entryPoint.value);
    }
  }

  lemma PromotionSendsNoEntry(d: Desk, w: World)
    requires |w.bars| > 0
    ensures NewEntriesFollow(d, Promote(d, w), w)
  {
    var written := Write(d, d.row.(status := if d.row.status == AWAITING_LONG then LONG else SHORT, breach := false));
    StopCallSendsNoEntry(written, w, BarOf(w, d.row.symbol).symbol, ExitSide(d.row.status), FlattenQty(Net(d, d.row.symbol)), StopOr0(d.row));
  }

  lemma StopCallSendsNoEntry(d: Desk, w: World, symbol: string, side: Side, quantity: nat, stop: real)
    ensures NewEntriesFollow(d, PlaceStop(d, w, symbol, side, quantity, stop), w)
  {
  }

  // ---- keeping the stop ----

  /** A working exit of the full size: a stop within a rupee of the wanted level, or an exit at the last price. */
  predicate Covers(o: Order, symbol: string, side: Side, quantity: nat, stop: real, ltp: real) {
    && On(o, symbol, side) && Working(o) && o.quantity == quantity
    && if o.status == TRIGGER_PENDING
       then -1.0 < o.trigger - stop < 1.0 && -1.0 < o.limit - SlLimitPrice(side, stop) < 1.0
       else o.limit == ltp && (if side == SELL then ltp < stop else stop < ltp)
  }

  lemma SameRupeeIsNear(x: real, y: real)
    requires RoundHalfUp(x) == RoundHalfUp(y)
    ensures -1.0 < x - y < 1.0
  {
  }

  /**
   * When the broker takes what is asked, a call on the exit side of a held position leaves an
   * exit of the full size at the level: found, amended, resized, replaced or new.
   */
  lemma StopCallCovers(d: Desk, w: World, symbol: string, side: Side, quantity: nat, stop: real) returns (k: nat)
    requires ExitSideHeld(d, symbol, side) && w.stopAllowed && w.ordersReadable
    requires w.modifyWorks || w.stopCancelWorks
    requires w.exitAccepted && symbol in w.ltp
    ensures var after := PlaceStop(d, w, symbol, side, quantity, stop);
      k < |after.orders|
      && (Covers(after.orders[k], symbol, side, quantity, stop, w.ltp[symbol])
          || (!w.modifyWorks && k < |d.orders| && after == d && d.orders[k].quantity == quantity
              && ChaseStop(symbol, side)(d.orders[k]) && StopNeedsAmend(d.orders[k], stop, SlLimitPrice(side, stop))))
  {
    var after := PlaceStop(d, w, symbol, side, quantity, stop);
    var first := FirstWhere(d.orders, ChaseStop(symbol, side));
    ExitWaitsExactly(symbol, side, quantity, stop, w.ltp[symbol]);
    if first < |d.orders| && (w.modifyWorks || d.orders[first].quantity == quantity) {
      k := first;
      var o := d.orders[k];
      if !StopNeedsAmend(o, stop, SlLimitPrice(side, stop)) {
        SameRupeeIsNear(o.trigger, stop);
        SameRupeeIsNear(o.limit, SlLimitPrice(side, stop));
      }
    } else {
      k := |d.orders|;
    }
  }

  /** Trigger or limit of this stop is another whole rupee than wanted. */
  predicate OffLevel(o: Order, side: Side, stop: real) {
    || (o.trigger + 0.5).Floor != (stop + 0.5).Floor
    || (o.limit + 0.5).Floor != ((if side == BUY then stop + 5.0 else stop - 5.0) + 0.5).Floor
  }

  /** An untriggered order of that contract and side that carries the Chase tag. */
  predicate OwnStop(o: Order, symbol: string, side: Side) {
    o.symbol == symbol && o.side == side && o.status == TRIGGER_PENDING && o.chaseTag
  }

  /**
   * A stop call does something exactly on the exit side of a held position, allowed and with a readable book,
   * when there is no untriggered stop and a new exit can go out; or its stop has another size and can be
   * resized, or cancelled; or its stop has the size, is off the level, and can be amended.
   */
  lemma StopCallActsExactly(d: Desk, w: World, symbol: string, side: Side, quantity: nat, stop: real, k: nat)
    requires k <= |d.orders| && forall i :: 0 <= i < k ==> !OwnStop(d.orders[i], symbol, side)
    requires k < |d.orders| ==> OwnStop(d.orders[k], symbol, side)
    ensures PlaceStop(d, w, symbol, side, quantity, stop) != d
       <==> && (if side == SELL then Net(d, symbol) > 0 else Net(d, symbol) < 0) && w.stopAllowed && w.ordersReadable
            && if k == |d.orders| then symbol in w.ltp && w.exitAccepted
               else if d.orders[k].quantity != quantity then w.modifyWorks || w.stopCancelWorks
               else w.modifyWorks && OffLevel(d.orders[k], side, stop)
  {
    assert FirstWhere(d.orders, ChaseStop(symbol, side)) == k;
  }

  /** The broker takes what a stop call asks for, and the book's own contract is among the bars. */
  predicate StopsWork(d: Desk, w: World) {
    && d.row.symbol != "" && |w.bars| > 0 && BarOf(w, d.row.symbol).symbol == d.row.symbol && WriteOk(d)
    && w.stopAllowed && w.ordersReadable && w.modifyWorks && w.exitAccepted && d.row.symbol in w.ltp
  }

  /** After a 13:15 trail the stored stop and the broker agree: the whole position has an exit at the new level. */
  lemma TrailLeavesCover(d: Desk, w: World) returns (k: nat)
    requires StopsWork(d, w) && StatusHasPosition(d.row.status, Net(d, d.row.symbol))
    requires SkipsHourlyHold(w.hour, d.row.createdOn, w.today)
    ensures var after := Tick(d, w);
      && after.row == d.row.(stop := Some(TrailedStop(d.row, BarOf(w, d.row.symbol))))
      && k < |after.orders|
      && Covers(after.orders[k], d.row.symbol, ExitSide(d.row.status), FlattenQty(Net(d, d.row.symbol)), after.row.stop.value, w.ltp[d.row.symbol])
  {
    var stop := TrailedStop(d.row, BarOf(w, d.row.symbol));
    var written := Write(d, d.row.(stop := Some(stop)));
    k := StopCallCovers(written, w, d.row.symbol, ExitSide(d.row.status), FlattenQty(Net(d, d.row.symbol)), stop);
  }

  /** A filled entry that becomes LONG or SHORT with a stored stop is covered at that stop in the same hour. */
  lemma PromotionLeavesCover(d: Desk, w: World) returns (k: nat)
    requires StopsWork(d, w) && Pending(d.row.status) && !BlocksEntries(SettingsOf(w, w.book)) && StopOr0(d.row) != 0.0
    requires SideHasPosition(d.row.status == AWAITING_LONG, Net(d, d.row.symbol))
    ensures var after := Tick(d, w);
      && StatusHasPosition(after.row.status, Net(d, d.row.symbol)) && after.row.stop == d.row.stop && k < |after.orders|
      && Covers(after.orders[k], d.row.symbol, ExitSide(d.row.status), FlattenQty(Net(d, d.row.symbol)), StopOr0(d.row), w.ltp[d.row.symbol])
  {
    var written := Write(d, d.row.(status := if d.row.status == AWAITING_LONG then LONG else SHORT, breach := false));
    k := StopCallCovers(written, w, d.row.symbol, ExitSide(d.row.status), FlattenQty(Net(d, d.row.symbol)), StopOr0(d.row));
  }

  // ---- two entry guards ----

  datatype EntryAction = SignalOnly | WaitOpenOrder | OtherBookOpen | LeftoverOpen | AlreadyFilled | PlaceEntryNow

  /** The minute worker's decision. */
  function DecideChaseEntryAction(automated: bool, quantity: int, netQty: int, long: bool, hasOpenEntryOrder: bool,
                                  otherBookOpen: bool, kiteQtyKnown: Option<bool>): EntryAction {
    if !automated || quantity <= 0 then SignalOnly
    else if kiteQtyKnown == Some(false) then WaitOpenOrder
    else if otherBookOpen then OtherBookOpen
    else
      var openSide := SideFromNetQty(netQty);
      if openSide.Some? && openSide.value != (if long then LONG else SHORT) then LeftoverOpen
      else if SideHasPosition(long, netQty) then AlreadyFilled
      else if hasOpenEntryOrder then WaitOpenOrder
      else PlaceEntryNow
  }

  /**
   * On one live book the two guards part only one way: whatever the minute worker would enter the
   * hourly run would too, and the hourly run alone enters exactly when the other side is still
   * open or the quantity could not be read.
   */
  lemma GuardsDifferExactly(d: Desk, w: World, b: Bar, side: Side, known: bool)
    requires b.underlying.Some? && !BlocksEntries(SettingsOf(w, b.underlying.value))
    requires EntryQty(SettingsOf(w, b.underlying.value), b) > 0 && w.ordersReadable
    ensures var s := SettingsOf(w, b.underlying.value);
      var minute := DecideChaseEntryAction(true, EntryQty(s, b), Net(d, b.symbol), side == BUY,
                      (b.symbol, side) in w.ledgerEntries || HasWorking(d.orders, b.symbol, side), false, Some(known));
      && (minute == PlaceEntryNow ==> MayEnter(d, w, b, side))
      && (MayEnter(d, w, b, side) && minute != PlaceEntryNow
          <==> MayEnter(d, w, b, side) && (!known || SideHasPosition(side == SELL, Net(d, b.symbol))))
  {
    var s := SettingsOf(w, b.underlying.value);
  }

  /** It happens on an unread quantity: a flat-looking book the minute worker leaves alone is entered by the hour. */
  lemma HourlyEntersUnread(symbol: string)
    requires symbol != ""
    ensures var b := Bar(symbol, Some("NIFTY"), 100.0, 110.0, 90.0, 105.0, 75);
      var w := World("NIFTY", [b], 10, 1, map["NIFTY" := Settings(true, false, 1, 0.2, 5.0)], map[symbol := 105.0], {},
                     true, true, true, true, true, true, true);
      var d := Desk(Row(AWAITING_LONG, symbol, Some(90.0), Some(110.0), false, 1), [], map[], [], []);
      && MayEnter(d, w, b, BUY) && DecideChaseEntryAction(true, 75, 0, true, false, false, Some(false)) == WaitOpenOrder
      && DecideChaseEntryAction(true, 75, -75, true, false, false, Some(true)) == LeftoverOpen
      && MayEnter(d.(net := map[symbol := -75]), w, b, BUY)
  {
  }
}
