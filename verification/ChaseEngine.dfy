/** `generateSignal` and the order calls it makes, step by step, against the functions of ChaseDesk. */
module ChaseEngine {
  import opened Options
  import opened ChaseFill
  import opened ChaseDesk

  class Engine {
    var row: Row
    var orders: seq<Order>
    var net: map<string, int>
    var log: seq<Event>
    var writes: seq<bool>

    constructor (d: Desk)
      ensures Now() == d
    {
      row, orders, net, log, writes := d.row, d.orders, d.net, d.log, d.writes;
    }

    function Now(): Desk
      reads this
    {
      Desk(row, orders, net, log, writes)
    }

    method UpdateChaseStatus(next: Row) returns (success: bool)
      modifies this
      ensures Now() == Write(old(Now()), next) && success == WriteOk(old(Now()))
    {
      success := true;
      if |writes| > 0 {
        success := writes[0];
        writes := writes[1..];
      }
      if success {
        row := next;
      }
    }

    /** False stands for an exception. */
    method CancelOrder(w: World, symbol: string, side: Side) returns (ok: bool)
      modifies this
      ensures Now() == Cancel(old(Now()), w, symbol, side) && ok == w.cancelWorks
    {
      log := log + [CancelAsked(symbol, side)];
      if !w.cancelWorks {
        return false;
      }
      var k := FirstWhere(orders, PendingTrigger(symbol, side));
      if k < |orders| {
        orders := orders[k := orders[k].(status := CANCELLED)];
      }
      return true;
    }

    method PlaceEntryTriggerOrder(w: World, b: Bar, side: Side, trigger: real)
      modifies this
      ensures Now() == PlaceEntry(old(Now()), w, b, side, trigger)
    {
      if b.underlying.None? {
        return;
      }
      var settings := SettingsOf(w, b.underlying.value);
      if !settings.enabled || settings.paused {
        return;
      }
      if settings.lots <= 0 {
        return;
      }
      var quantity := settings.lots * b.lotSize;
      if SideHasPosition(side == BUY, Net(Now(), b.symbol)) {
        return;
      }
      if !w.ordersReadable {
        return;
      }
      if (b.symbol, side) in w.ledgerEntries || HasWorking(orders, b.symbol, side) {
        return;
      }
      if !w.entryAccepted {
        return;
      }
      var order := EntryOrder(w, b, side, trigger, quantity, settings.entryLimitOffset);
      orders := orders + [order];
      log := log + [EntrySent(order)];
    }

    method PlaceSL(w: World, symbol: string, side: Side, quantity: nat, stop: real)
      modifies this
      ensures Now() == PlaceStop(old(Now()), w, symbol, side, quantity, stop)
    {
      var position := Net(Now(), symbol);
      if position == 0 {
        return;
      }
      var actual := if position > 0 then SELL else BUY;
      if actual != side {
        return;
      }
      var price := SlLimitPrice(side, stop);
      if !w.stopAllowed || !w.ordersReadable {
        return;
      }
      var k := FirstWhere(orders, ChaseStop(symbol, side));
      if k < |orders| && orders[k].quantity != quantity {
        if w.modifyWorks {
          orders := orders[k := orders[k].(quantity := quantity, trigger := stop, limit := price)];
          return;
        }
        if !w.stopCancelWorks {
          return;
        }
        orders := orders[k := orders[k].(status := CANCELLED)];
      } else if k < |orders| {
        if StopNeedsAmend(orders[k], stop, price) && w.modifyWorks {
          orders := orders[k := orders[k].(trigger := stop, limit := price)];
        }
        return;
      }
      if symbol !in w.ltp || !w.exitAccepted {
        return;
      }
      var order := ExitOrder(symbol, side, quantity, stop, w.ltp[symbol]);
      orders := orders + [order];
      log := log + [ExitSent(order)];
    }

    /** Calls itself once at most: only a pending signal does, and it is not pending any more. */
    method GenerateSignal(w: World)
      modifies this
      ensures Now() == Tick(old(Now()), w)
      decreases if Pending(row.status) then 1 else 0
    {
      var currentStatus, symbol := row.status, row.symbol;
      var settings := SettingsOf(w, w.book);
      var blockNewEntries := !settings.enabled || settings.paused;
      if blockNewEntries && !InPosition(currentStatus) {
        if Pending(currentStatus) {
          if |w.bars| > 0 && symbol != "" {
            var ok := CancelOrder(w, symbol, EntrySide(currentStatus));
            if !ok {
              return;
            }
          }
          var _ := UpdateChaseStatus(BackToWaiting(row, w.today));
        }
        return;
      }
      if |w.bars| == 0 {
        return;
      }
      if InPosition(currentStatus) {
        if !StatusHasPosition(currentStatus, Net(Now(), symbol)) {
          var _ := UpdateChaseStatus(BackToWaiting(row, w.today));
          currentStatus := AWAITING_SIGNAL;
        }
      }
      if InPosition(currentStatus) {
        if SkipsHourlyHold(w.hour, row.createdOn, w.today) {
          TrailStop(w);
        }
      } else if currentStatus == AWAITING_SIGNAL {
        EvaluateSignal(w);
      } else {
        var b := BarOf(w, symbol);
        var side := EntrySide(currentStatus);
        if SideHasPosition(side == BUY, Net(Now(), symbol)) {
          PromoteFilled(w);
        } else if w.hour == 16 {
          var _ := UpdateChaseStatus(BackToWaiting(row, w.today));
        } else if Invalidated(row, b) {
          var ok := CancelOrder(w, b.symbol, side);
          if !ok {
            return;
          }
          var success := UpdateChaseStatus(BackToWaiting(row, w.today));
          if success {
            GenerateSignal(w);
          }
        } else if CrossesBack(row, b, settings.bufferPercent) {
          var _ := UpdateChaseStatus(row.(breach := true));
        } else {
          var trigger := if row.entryPoint.Some? then row.entryPoint.value
                         else if side == BUY then b.highestHigh else b.lowestLow;
          PlaceEntryTriggerOrder(w, b, side, trigger);
        }
      }
    }

    method TrailStop(w: World)
      requires |w.bars| > 0
      modifies this
      ensures Now() == Trail(old(Now()), w)
    {
      var b := BarOf(w, row.symbol);
      var status := row.status;
      var stop := TrailedStop(row, b);
      var success := UpdateChaseStatus(row.(stop := Some(stop)));
      if success {
        var trailQty := FlattenQty(Net(Now(), b.symbol));
        if trailQty > 0 {
          PlaceSL(w, b.symbol, ExitSide(status), trailQty, stop);
        }
      }
    }

    method PromoteFilled(w: World)
      requires |w.bars| > 0
      modifies this
      ensures Now() == Promote(old(Now()), w)
    {
      var status, symbol, stop := row.status, row.symbol, StopOr0(row);
      var pendingQty := Net(Now(), symbol);
      var success := UpdateChaseStatus(row.(status := if status == AWAITING_LONG then LONG else SHORT, breach := false));
      if !success {
        return;
      }
      if stop != 0.0 {
        PlaceSL(w, BarOf(w, symbol).symbol, ExitSide(status), FlattenQty(pendingQty), stop);
      }
    }

    method EvaluateSignal(w: World)
      requires |w.bars| > 0
      modifies this
      ensures Now() == AwaitSignal(old(Now()), w)
    {
      if w.hour == 16 {
        return;
      }
      var leftover := SideFromNetQty(Net(Now(), row.symbol));
      if leftover.Some? {
        var _ := UpdateChaseStatus(row.(status := leftover.value, breach := false));
        return;
      }
      var b, buffer := DefaultBar(w), SettingsOf(w, w.book).bufferPercent;
      if b.lastClose > LongTolerance(b, buffer) {
        var success := UpdateChaseStatus(RaisedRow(row, b, true, w.today));
        if success {
          PlaceEntryTriggerOrder(w, b, BUY, b.highestHigh);
        }
      } else if b.lastClose < ShortTolerance(b, buffer) {
        var success := UpdateChaseStatus(RaisedRow(row, b, false, w.today));
        if success {
          PlaceEntryTriggerOrder(w, b, SELL, b.lowestLow);
        }
      }
    }
  }
}
