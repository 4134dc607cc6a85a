/**
 * What one hourly Chase run may read and do: the stored row, the broker's orders and net
 * positions, and the order operations of lib/chaseSignal.ts and lib/kiteUtils.ts as
 * functions on that state. Only the live book is modelled.
 */
module ChaseDesk {
  import opened Options
  import opened Rounding
  import opened ChaseFill

  /** The chase_status row; `createdOn` is a calendar day. */
  datatype Row = Row(status: Status, symbol: string, stop: Option<real>, entryPoint: Option<real>, breach: bool, createdOn: int)

  datatype Settings = Settings(enabled: bool, paused: bool, lots: nat, bufferPercent: real, entryLimitOffset: real)

  /** One contract with this hour's EMA reading; `underlying` is None for a symbol that is no future. */
  datatype Bar = Bar(symbol: string, underlying: Option<string>, ema: real, highestHigh: real, lowestLow: real,
                     lastClose: real, lotSize: nat)

  datatype Event = CancelAsked(symbol: string, side: Side) | EntrySent(order: Order) | ExitSent(order: Order)

  /** `writes` are the outcomes of the next row writes; once used up, writes succeed. */
  datatype Desk = Desk(row: Row, orders: seq<Order>, net: map<string, int>, log: seq<Event>, writes: seq<bool>)

  /** Everything outside the desk's own state that one run meets. */
  datatype World = World(book: string, bars: seq<Bar>, hour: int, today: int, settings: map<string, Settings>,
                         ltp: map<string, real>, ledgerEntries: set<(string, Side)>,
                         ordersReadable: bool, cancelWorks: bool, entryAccepted: bool,
                         stopAllowed: bool, modifyWorks: bool, stopCancelWorks: bool, exitAccepted: bool)

  function Net(d: Desk, symbol: string): int {
    if symbol != "" && symbol in d.net then d.net[symbol] else 0
  }

  /** A book that was never added reads as disabled. */
  function SettingsOf(w: World, book: string): Settings {
    if book in w.settings then w.settings[book] else Settings(false, true, 1, 0.2, 5.0)
  }

  predicate BlocksEntries(s: Settings) { !s.enabled || s.paused }

  function LongTolerance(b: Bar, bufferPercent: real): real { b.ema * (1.0 + bufferPercent / 100.0) }

  function ShortTolerance(b: Bar, bufferPercent: real): real { b.ema * (1.0 - bufferPercent / 100.0) }

  function FirstWhere(orders: seq<Order>, p: Order -> bool): (k: nat)
    ensures k <= |orders|
    ensures k < |orders| ==> p(orders[k])
    ensures forall i :: 0 <= i < k ==> !p(orders[i])
  {
    if |orders| == 0 then 0 else if p(orders[0]) then 0 else 1 + FirstWhere(orders[1..], p)
  }

  // ---- row writes ----

  predicate WriteOk(d: Desk) { |d.writes| == 0 || d.writes[0] }

  function Write(d: Desk, row: Row): Desk {
    d.(row := if WriteOk(d) then row else d.row, writes := if |d.writes| == 0 then [] else d.writes[1..])
  }

  // ---- cancelOrder ----

  function PendingTrigger(symbol: string, side: Side): Order -> bool {
    (o: Order) => On(o, symbol, side) && o.status == TRIGGER_PENDING
  }

  function Dead(o: Order): Order { o.(status := CANCELLED) }

  function CancelFirst(orders: seq<Order>, symbol: string, side: Side): seq<Order> {
    var k := FirstWhere(orders, PendingTrigger(symbol, side));
    if k == |orders| then orders else orders[k := Dead(orders[k])]
  }

  /** Cancels the first TRIGGER PENDING order of that side, whatever it was placed for. */
  function Cancel(d: Desk, w: World, symbol: string, side: Side): Desk {
    var asked := d.(log := d.log + [CancelAsked(symbol, side)]);
    if !w.cancelWorks then asked else asked.(orders := CancelFirst(d.orders, symbol, side))
  }

  // ---- placeEntryTriggerOrder ----

  function EntryOrder(w: World, b: Bar, side: Side, trigger: real, quantity: nat, offset: real): Order {
    var ltp := if b.symbol in w.ltp then w.ltp[b.symbol] else 0.0;
    var breached := if side == BUY then ltp >= trigger else ltp <= trigger;
    if breached then Order(b.symbol, side, OPEN, MARKET, ENTRY, quantity, 0, 0.0, 0.0, true, None)
    else Order(b.symbol, side, TRIGGER_PENDING, SL, ENTRY, quantity, 0, trigger,
               if side == BUY then trigger + offset else trigger - offset, true, None)
  }

  function EntryQty(s: Settings, b: Bar): nat { s.lots * b.lotSize }

  /** The refusals that stand between a signal and an entry order. */
  predicate MayEnter(d: Desk, w: World, b: Bar, side: Side) {
    && b.underlying.Some?
    && !BlocksEntries(SettingsOf(w, b.underlying.value))
    && SettingsOf(w, b.underlying.value).lots > 0
    && !SideHasPosition(side == BUY, Net(d, b.symbol))
    && w.ordersReadable
    && (b.symbol, side) !in w.ledgerEntries && !HasWorking(d.orders, b.symbol, side)
  }

  function PlaceEntry(d: Desk, w: World, b: Bar, side: Side, trigger: real): Desk {
    if !MayEnter(d, w, b, side) || !w.entryAccepted then d
    else
      var s := SettingsOf(w, b.underlying.value);
      var order := EntryOrder(w, b, side, trigger, EntryQty(s, b), s.entryLimitOffset);
      d.(orders := d.orders + [order], log := d.log + [EntrySent(order)])
  }

  // ---- placeSL ----

  function SlLimitPrice(side: Side, stop: real): real { if side == BUY then stop + 5.0 else stop - 5.0 }

  /** A working stop is left alone while trigger and limit agree with the trail to the rupee. */
  predicate StopNeedsAmend(o: Order, stop: real, limit: real) {
    RoundHalfUp(o.trigger) != RoundHalfUp(stop) || RoundHalfUp(o.limit) != RoundHalfUp(limit)
  }

  function ChaseStop(symbol: string, side: Side): Order -> bool {
    (o: Order) => On(o, symbol, side) && o.status == TRIGGER_PENDING && o.chaseTag
  }

  function ExitOrder(symbol: string, side: Side, quantity: nat, stop: real, ltp: real): Order {
    var breached := if side == BUY then stop < ltp else stop > ltp;
    if breached then Order(symbol, side, OPEN, LIMIT, FLATTEN, quantity, 0, 0.0, ltp, true, None)
    else Order(symbol, side, TRIGGER_PENDING, SL, STOP, quantity, 0, stop, SlLimitPrice(side, stop), true, None)
  }

  function SendExit(d: Desk, w: World, symbol: string, side: Side, quantity: nat, stop: real): Desk {
    if symbol !in w.ltp || !w.exitAccepted then d
    else
      var order := ExitOrder(symbol, side, quantity, stop, w.ltp[symbol]);
      d.(orders := d.orders + [order], log := d.log + [ExitSent(order)])
  }

  predicate ExitSideHeld(d: Desk, symbol: string, side: Side) {
    Net(d, symbol) != 0 && (side == SELL <==> Net(d, symbol) > 0)
  }

  function PlaceStop(d: Desk, w: World, symbol: string, side: Side, quantity: nat, stop: real): Desk {
    var limit := SlLimitPrice(side, stop);
    var k := FirstWhere(d.orders, ChaseStop(symbol, side));
    if !ExitSideHeld(d, symbol, side) || !w.stopAllowed || !w.ordersReadable then d
    else if k == |d.orders| then SendExit(d, w, symbol, side, quantity, stop)
    else
      var existing := d.orders[k];
      if existing.quantity != quantity then
        if w.modifyWorks then d.(orders := d.orders[k := existing.(quantity := quantity, trigger := stop, limit := limit)])
        else if w.stopCancelWorks then SendExit(d.(orders := d.orders[k := Dead(existing)]), w, symbol, side, quantity, stop)
        else d
      else if StopNeedsAmend(existing, stop, limit) && w.modifyWorks then
        d.(orders := d.orders[k := existing.(trigger := stop, limit := limit)])
      else d
  }

  // ---- generateSignal ----

  function DefaultBar(w: World): Bar
    requires |w.bars| > 0
  {
    if |w.bars| == 1 then w.bars[0] else w.bars[1]
  }

  function FindBar(bars: seq<Bar>, symbol: string, default: Bar): Bar {
    if |bars| == 0 then default else if bars[0].symbol == symbol then bars[0] else FindBar(bars[1..], symbol, default)
  }

  function BarOf(w: World, symbol: string): Bar
    requires |w.bars| > 0
  {
    FindBar(w.bars, symbol, DefaultBar(w))
  }

  predicate Pending(s: Status) { s == AWAITING_LONG || s == AWAITING_SHORT }

  predicate InPosition(s: Status) { s == LONG || s == SHORT }

  function EntrySide(s: Status): Side { if s == AWAITING_LONG then BUY else SELL }

  function ExitSide(s: Status): Side { if s == LONG || s == AWAITING_LONG then SELL else BUY }

  /** 13:15 on a later day trails the stop; every other in-position hour is a hold. */
  predicate SkipsHourlyHold(hour: int, entryDate: int, today: int) { hour == 13 && entryDate != today }

  function BackToWaiting(row: Row, today: int): Row {
    row.(status := AWAITING_SIGNAL, breach := false, createdOn := today)
  }

  function StopOr0(row: Row): real { if row.stop.Some? then row.stop.value else 0.0 }

  function RaisedRow(row: Row, b: Bar, long: bool, today: int): Row {
    if long then Row(AWAITING_LONG, b.symbol,
                     Some(RoundHalfUp(if b.ema <= b.lowestLow then b.ema else b.lowestLow) as real),
                     Some(b.highestHigh), false, today)
    else Row(AWAITING_SHORT, b.symbol,
             Some(RoundHalfUp(if b.ema >= b.highestHigh then b.ema else b.highestHigh) as real),
             Some(b.lowestLow), false, today)
  }

  function Raise(d: Desk, w: World, b: Bar, long: bool): Desk {
    var written := Write(d, RaisedRow(d.row, b, long, w.today));
    if !WriteOk(d) then written
    else PlaceEntry(written, w, b, if long then BUY else SELL, if long then b.highestHigh else b.lowestLow)
  }

  /** The AWAITING_SIGNAL rule: adopt a leftover position, or raise a signal outside the band. */
  function AwaitSignal(d: Desk, w: World): Desk
    requires |w.bars| > 0
  {
    var b, buffer := DefaultBar(w), SettingsOf(w, w.book).bufferPercent;
    var leftover := SideFromNetQty(Net(d, d.row.symbol));
    if w.hour == 16 then d
    else if leftover.Some? then Write(d, d.row.(status := leftover.value, breach := false))
    else if b.lastClose > LongTolerance(b, buffer) then Raise(d, w, b, true)
    else if b.lastClose < ShortTolerance(b, buffer) then Raise(d, w, b, false)
    else d
  }

  function TrailedStop(row: Row, b: Bar): real {
    if row.status == LONG then (if b.ema >= StopOr0(row) then b.ema else StopOr0(row))
    else (if b.ema <= StopOr0(row) then b.ema else StopOr0(row))
  }

  function Trail(d: Desk, w: World): Desk
    requires |w.bars| > 0
  {
    var b := BarOf(w, d.row.symbol);
    var stop := TrailedStop(d.row, b);
    var written := Write(d, d.row.(stop := Some(stop)));
    if !WriteOk(d) || Net(d, b.symbol) == 0 then written
    else PlaceStop(written, w, b.symbol, ExitSide(d.row.status), FlattenQty(Net(d, b.symbol)), stop)
  }

  function Promote(d: Desk, w: World): Desk
    requires |w.bars| > 0
  {
    var written := Write(d, d.row.(status := if d.row.status == AWAITING_LONG then LONG else SHORT, breach := false));
    if !WriteOk(d) || StopOr0(d.row) == 0.0 then written
    else PlaceStop(written, w, BarOf(w, d.row.symbol).symbol, ExitSide(d.row.status),
                   FlattenQty(Net(d, d.row.symbol)), StopOr0(d.row))
  }

  predicate Invalidated(row: Row, b: Bar) {
    row.breach || (if row.status == AWAITING_LONG then b.lastClose < StopOr0(row) else b.lastClose > StopOr0(row))
  }

  predicate CrossesBack(row: Row, b: Bar, buffer: real) {
    if row.status == AWAITING_LONG then b.lastClose < ShortTolerance(b, buffer) else b.lastClose > LongTolerance(b, buffer)
  }

  /** An invalid pending signal: cancel its order and go back to waiting. */
  function Withdraw(d: Desk, w: World, symbol: string): Desk {
    var cancelled := Cancel(d, w, symbol, EntrySide(d.row.status));
    if !w.cancelWorks then cancelled else Write(cancelled, BackToWaiting(d.row, w.today))
  }

  function AwaitFill(d: Desk, w: World): Desk
    requires |w.bars| > 0
  {
    var b := BarOf(w, d.row.symbol);
    var side := EntrySide(d.row.status);
    if SideHasPosition(side == BUY, Net(d, d.row.symbol)) then Promote(d, w)
    else if w.hour == 16 then Write(d, BackToWaiting(d.row, w.today))
    else if Invalidated(d.row, b) then
      var out := Withdraw(d, w, b.symbol);
      if w.cancelWorks && WriteOk(d) then AwaitSignal(out, w) else out
    else if CrossesBack(d.row, b, SettingsOf(w, w.book).bufferPercent) then Write(d, d.row.(breach := true))
    else PlaceEntry(d, w, b, side, if d.row.entryPoint.Some? then d.row.entryPoint.value
                                   else if side == BUY then b.highestHigh else b.lowestLow)
  }

  /** Paused or disabled and not in position: drop a pending entry, open nothing. */
  function Blocked(d: Desk, w: World): Desk {
    if !Pending(d.row.status) then d
    else if |w.bars| > 0 && d.row.symbol != "" then Withdraw(d, w, d.row.symbol)
    else Write(d, BackToWaiting(d.row, w.today))
  }

  /** One hourly run of `generateSignal`, without its self-call. */
  function Tick(d: Desk, w: World): Desk {
    if BlocksEntries(SettingsOf(w, w.book)) && !InPosition(d.row.status) then Blocked(d, w)
    else if |w.bars| == 0 then d
    else if InPosition(d.row.status) then
      if !StatusHasPosition(d.row.status, Net(d, d.row.symbol)) then
        AwaitSignal(Write(d, BackToWaiting(d.row, w.today)), w)
      else if !SkipsHourlyHold(w.hour, d.row.createdOn, w.today) then d
      else Trail(d, w)
    else if d.row.status == AWAITING_SIGNAL then AwaitSignal(d, w)
    else AwaitFill(d, w)
  }
}
