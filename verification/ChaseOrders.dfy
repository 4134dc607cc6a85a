/**
 * The order book under Chase: hourly runs interleaved with a broker that triggers, fills
 * and drops orders, and with the minute worker's covers. No pyramiding, one working stop,
 * and a stop that only tightens.
 */
module ChaseOrders {
  import opened Options
  import opened ChaseFill
  import opened ChaseDesk
  import ChaseSignal

  // ---- what one hourly run does to the book ----

  /** `drop` is an order cancelled first; then at most one order is amended or added. */
  datatype Change = Nothing | Enter(entry: Order) | Amend(k: nat, to: Order) | Exit(cover: Order)

  datatype Move = Move(drop: Option<nat>, change: Change)

  function Dropped(orders: seq<Order>, drop: Option<nat>): seq<Order> {
    if drop.Some? && drop.value < |orders| then orders[drop.value := Dead(orders[drop.value])] else orders
  }

  function Applied(orders: seq<Order>, m: Move): seq<Order> {
    var left := Dropped(orders, m.drop);
    match m.change
    case Nothing => left
    case Enter(o) => left + [o]
    case Amend(k, o) => if k < |left| then left[k := o] else left
    case Exit(o) => left + [o]
  }

  ghost predicate NoChaseStop(orders: seq<Order>, symbol: string, side: Side) {
    forall i :: 0 <= i < |orders| ==> !ChaseStop(symbol, side)(orders[i])
  }

  /** The stop call an hourly run makes: at the 13:15 trail of an open book, or when a filled entry is promoted. */
  datatype StopCall = StopCall(symbol: string, side: Side, quantity: nat)

  function StopCallOf(d: Desk, w: World): Option<StopCall> {
    if |w.bars| == 0 || !WriteOk(d) then None
    else
      var symbol, side := BarOf(w, d.row.symbol).symbol, ExitSide(d.row.status);
      if InPosition(d.row.status) then
        if StatusHasPosition(d.row.status, Net(d, d.row.symbol)) && SkipsHourlyHold(w.hour, d.row.createdOn, w.today)
           && Net(d, symbol) != 0
        then Some(StopCall(symbol, side, FlattenQty(Net(d, symbol)))) else None
      else if Pending(d.row.status) && !BlocksEntries(SettingsOf(w, w.book))
              && SideHasPosition(d.row.status == AWAITING_LONG, Net(d, d.row.symbol)) && StopOr0(d.row) != 0.0
      then Some(StopCall(symbol, side, FlattenQty(Net(d, d.row.symbol)))) else None
  }

  /** The hour's stop call, if any, sends or resizes. */
  predicate SizesExit(d: Desk, w: World) { StopCallOf(d, w).Some? && Resizes(d, w, StopCallOf(d, w).value) }

  /** The call sends an exit or resizes the working stop, rather than leaving or re-pricing it. */
  predicate Resizes(d: Desk, w: World, c: StopCall) {
    var k := FirstWhere(d.orders, ChaseStop(c.symbol, c.side));
    var sends := c.symbol in w.ltp && w.exitAccepted;
    && ExitSideHeld(d, c.symbol, c.side) && w.stopAllowed && w.ordersReadable
    && (if k == |d.orders| then sends
        else d.orders[k].quantity != c.quantity && (w.modifyWorks || (w.stopCancelWorks && sends)))
  }

  /** The entry of one of the listed contracts, at the full size its book asks for. */
  ghost predicate EntryOf(w: World, o: Order) {
    exists b :: b in w.bars && b.symbol == o.symbol && b.underlying.Some?
             && o.quantity == EntryQty(SettingsOf(w, b.underlying.value), b)
  }

  /** Why the move was allowed, read off the state before it; `stop` is the row's stop after the run. */
  ghost predicate Justified(d: Desk, w: World, call: Option<StopCall>, m: Move, stop: real) {
    var left := Dropped(d.orders, m.drop);
    && (m.drop.Some? ==> m.drop.value < |d.orders| && d.orders[m.drop.value].status == TRIGGER_PENDING)
    && match m.change
       case Nothing => true
       case Enter(o) =>
         && o.purpose == ENTRY && o.filled == 0 && EntryOf(w, o)
         && !SideHasPosition(o.side == BUY, Net(d, o.symbol)) && !HasWorking(left, o.symbol, o.side)
       case Amend(k, o) =>
         && call == Some(StopCall(o.symbol, o.side, o.quantity))
         && k < |left| && k == FirstWhere(d.orders, ChaseStop(o.symbol, o.side)) && m.drop.None?
         && o == left[k].(quantity := o.quantity, trigger := stop, limit := o.limit)
         && (o.quantity != left[k].quantity ==> Resizes(d, w, call.value) && w.modifyWorks)
       case Exit(o) =>
         && call == Some(StopCall(o.symbol, o.side, o.quantity)) && Resizes(d, w, call.value)
         && o.purpose != ENTRY && o.filled == 0 && Working(o)
         && (o.status == TRIGGER_PENDING ==> o.trigger == stop)
         && (m.drop.None? ==> NoChaseStop(d.orders, o.symbol, o.side))
         && (m.drop.Some? ==> m.drop.value == FirstWhere(d.orders, ChaseStop(o.symbol, o.side)) && !w.modifyWorks)
  }

  /** Contracts have names. */
  ghost predicate NamedBars(w: World) { forall b :: b in w.bars ==> b.symbol != "" }

  lemma EntryMove(d: Desk, w: World, b: Bar, side: Side, trigger: real, call: Option<StopCall>, stop: real) returns (m: Move)
    requires b in w.bars
    ensures PlaceEntry(d, w, b, side, trigger).orders == Applied(d.orders, m) && m.drop.None?
    ensures Justified(d, w, call, m, stop) && m.change.Enter? == (PlaceEntry(d, w, b, side, trigger) != d)
    ensures PlaceEntry(d, w, b, side, trigger).net == d.net
    ensures m.change in {Nothing} || m.change.Enter?
  {
    m := Move(None, Nothing);
    if MayEnter(d, w, b, side) && w.entryAccepted {
      var s := SettingsOf(w, b.underlying.value);
      var order := EntryOrder(w, b, side, trigger, EntryQty(s, b), s.entryLimitOffset);
      m := Move(None, Enter(order));
    }
  }

  lemma StopMove(d: Desk, w: World, c: StopCall, stop: real) returns (m: Move)
    ensures PlaceStop(d, w, c.symbol, c.side, c.quantity, stop).orders == Applied(d.orders, m)
    ensures PlaceStop(d, w, c.symbol, c.side, c.quantity, stop).net == d.net
    ensures Justified(d, w, Some(c), m, stop) && !m.change.Enter?
    ensures Resizes(d, w, c) ==> m.change.Exit? || m.change.Amend?
  {
    m := Move(None, Nothing);
    var after := PlaceStop(d, w, c.symbol, c.side, c.quantity, stop);
    var k := FirstWhere(d.orders, ChaseStop(c.symbol, c.side));
    if after != d && ExitSideHeld(d, c.symbol, c.side) && w.stopAllowed && w.ordersReadable {
      if k == |d.orders| {
        m := Move(None, Exit(ExitOrder(c.symbol, c.side, c.quantity, stop, w.ltp[c.symbol])));
      } else if d.orders[k].quantity != c.quantity && !w.modifyWorks {
        m := Move(Some(k), Nothing);
        if c.symbol in w.ltp && w.exitAccepted {
          m := Move(Some(k), Exit(ExitOrder(c.symbol, c.side, c.quantity, stop, w.ltp[c.symbol])));
        }
      } else {
        m := Move(None, Amend(k, after.orders[k]));
      }
    }
  }

  lemma CancelMove(d: Desk, w: World, symbol: string, side: Side) returns (drop: Option<nat>)
    ensures Cancel(d, w, symbol, side).orders == Dropped(d.orders, drop)
    ensures Cancel(d, w, symbol, side).net == d.net
    ensures drop.Some? ==> drop.value < |d.orders| && d.orders[drop.value].status == TRIGGER_PENDING
  {
    var k := FirstWhere(d.orders, PendingTrigger(symbol, side));
    drop := if w.cancelWorks && k < |d.orders| then Some(k) else None;
  }

  lemma AwaitMove(d: Desk, w: World, call: Option<StopCall>, stop: real) returns (m: Move)
    requires |w.bars| > 0
    ensures AwaitSignal(d, w).orders == Applied(d.orders, m) && AwaitSignal(d, w).net == d.net
    ensures m.drop.None? && (m.change.Nothing? || m.change.Enter?) && Justified(d, w, call, m, stop)
    ensures m.change.Enter? ==> !InPosition(AwaitSignal(d, w).row.status)
  {
    m := Move(None, Nothing);
    var b, buffer := DefaultBar(w), SettingsOf(w, w.book).bufferPercent;
    if w.hour != 16 && SideFromNetQty(Net(d, d.row.symbol)).None? && WriteOk(d) {
      if b.lastClose > LongTolerance(b, buffer) {
        var written := Write(d, RaisedRow(d.row, b, true, w.today));
        m := EntryMove(written, w, b, BUY, b.highestHigh, call, stop);
      } else if b.lastClose < ShortTolerance(b, buffer) {
        var written := Write(d, RaisedRow(d.row, b, false, w.today));
        m := EntryMove(written, w, b, SELL, b.lowestLow, call, stop);
      }
    }
  }

  lemma BarIsListed(bars: seq<Bar>, symbol: string, default: Bar)
    requires default in bars
    ensures FindBar(bars, symbol, default) in bars
  {
    BarIsListedOrDefault(bars, symbol, default);
  }

  lemma {:induction false} BarIsListedOrDefault(bars: seq<Bar>, symbol: string, default: Bar)
    ensures FindBar(bars, symbol, default) in bars || FindBar(bars, symbol, default) == default
  {
    if |bars| > 0 { BarIsListedOrDefault(bars[1..], symbol, default); }
  }

  lemma WithdrawMove(d: Desk, w: World, symbol: string) returns (drop: Option<nat>)
    ensures Withdraw(d, w, symbol).orders == Dropped(d.orders, drop) && Withdraw(d, w, symbol).net == d.net
    ensures drop.Some? ==> drop.value < |d.orders| && d.orders[drop.value].status == TRIGGER_PENDING
  {
    drop := CancelMove(d, w, symbol, EntrySide(d.row.status));
  }

  lemma FillMove(d: Desk, w: World) returns (m: Move)
    requires |w.bars| > 0 && Pending(d.row.status) && !BlocksEntries(SettingsOf(w, w.book))
    ensures AwaitFill(d, w).orders == Applied(d.orders, m) && AwaitFill(d, w).net == d.net
    ensures Justified(d, w, StopCallOf(d, w), m, StopOr0(AwaitFill(d, w).row))
    ensures SizesExit(d, w) ==> m.change.Exit? || m.change.Amend?
  {
    var b := BarOf(w, d.row.symbol);
    BarIsListed(w.bars, d.row.symbol, DefaultBar(w));
    m := Move(None, Nothing);
    if SideHasPosition(d.row.status == AWAITING_LONG, Net(d, d.row.symbol)) {
      m := PromoteMove(d, w);
    } else if w.hour == 16 {
    } else if Invalidated(d.row, b) {
      m := InvalidMove(d, w);
    } else if CrossesBack(d.row, b, SettingsOf(w, w.book).bufferPercent) {
    } else {
      var side := EntrySide(d.row.status);
      m := EntryMove(d, w, b, side, if d.row.entryPoint.Some? then d.row.entryPoint.value
                                    else if side == BUY then b.highestHigh else b.lowestLow, None, StopOr0(AwaitFill(d, w).row));
    }
  }

  lemma PromoteMove(d: Desk, w: World) returns (m: Move)
    requires |w.bars| > 0 && Pending(d.row.status) && !BlocksEntries(SettingsOf(w, w.book))
    requires SideHasPosition(d.row.status == AWAITING_LONG, Net(d, d.row.symbol))
    ensures Promote(d, w).orders == Applied(d.orders, m) && Promote(d, w).net == d.net
    ensures Justified(d, w, StopCallOf(d, w), m, StopOr0(Promote(d, w).row))
    ensures SizesExit(d, w) ==> m.change.Exit? || m.change.Amend?
  {
    m := Move(None, Nothing);
    var written := Write(d, d.row.(status := if d.row.status == AWAITING_LONG then LONG else SHORT, breach := false));
    ChaseSignal.PromoteWritesStatus(d, w);
    if StopCallOf(d, w).Some? {
      m := StopMove(written, w, StopCallOf(d, w).value, StopOr0(d.row));
    }
  }

  lemma InvalidMove(d: Desk, w: World) returns (m: Move)
    requires |w.bars| > 0
    ensures var out := Withdraw(d, w, BarOf(w, d.row.symbol).symbol);
      var after := if w.cancelWorks && WriteOk(d) then AwaitSignal(out, w) else out;
      after.orders == Applied(d.orders, m) && after.net == d.net && (m.change.Nothing? || m.change.Enter?)
      && forall call :: Justified(d, w, call, m, StopOr0(after.row))
  {
    var out := Withdraw(d, w, BarOf(w, d.row.symbol).symbol);
    var drop := WithdrawMove(d, w, BarOf(w, d.row.symbol).symbol);
    m := Move(drop, Nothing);
    if w.cancelWorks && WriteOk(d) {
      var next := AwaitMove(out, w, None, StopOr0(AwaitSignal(out, w).row));
      m := Move(drop, next.change);
    }
  }

  /** Every hourly run changes the order book by one justified move and no position. */
  lemma TickMove(d: Desk, w: World) returns (m: Move)
    ensures Tick(d, w).orders == Applied(d.orders, m) && Tick(d, w).net == d.net
    ensures Justified(d, w, StopCallOf(d, w), m, StopOr0(Tick(d, w).row))
    ensures SizesExit(d, w) ==> m.change.Exit? || m.change.Amend?
    ensures m.change.Enter? ==> !InPosition(d.row.status) || !InPosition(Tick(d, w).row.status)
  {
    m := Move(None, Nothing);
    if BlocksEntries(SettingsOf(w, w.book)) && !InPosition(d.row.status) {
      if Pending(d.row.status) && |w.bars| > 0 && d.row.symbol != "" {
        var drop := WithdrawMove(d, w, d.row.symbol);
        m := Move(drop, Nothing);
      }
    } else if |w.bars| == 0 {
    } else if InPosition(d.row.status) {
      if !StatusHasPosition(d.row.status, Net(d, d.row.symbol)) {
        var reset := Write(d, BackToWaiting(d.row, w.today));
        m := AwaitMove(reset, w, None, StopOr0(AwaitSignal(reset, w).row));
      } else if SkipsHourlyHold(w.hour, d.row.createdOn, w.today) {
        m := TrailMove(d, w);
      }
    } else if d.row.status == AWAITING_SIGNAL {
      m := AwaitMove(d, w, None, StopOr0(AwaitSignal(d, w).row));
    } else {
      m := FillMove(d, w);
    }
  }

  lemma TrailMove(d: Desk, w: World) returns (m: Move)
    requires |w.bars| > 0 && InPosition(d.row.status)
    requires StatusHasPosition(d.row.status, Net(d, d.row.symbol)) && SkipsHourlyHold(w.hour, d.row.createdOn, w.today)
    ensures Trail(d, w).orders == Applied(d.orders, m) && Trail(d, w).net == d.net
    ensures Justified(d, w, StopCallOf(d, w), m, StopOr0(Trail(d, w).row)) && !m.change.Enter?
    ensures SizesExit(d, w) ==> m.change.Exit? || m.change.Amend?
  {
    var stop := TrailedStop(d.row, BarOf(w, d.row.symbol));
    var written := Write(d, d.row.(stop := Some(stop)));
    ChaseSignal.TrailWritesStop(d, w);
    m := Move(None, Nothing);
    if StopCallOf(d, w).Some? {
      m := StopMove(written, w, StopCallOf(d, w).value, stop);
    }
  }
}
