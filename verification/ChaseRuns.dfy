/** Whole interleaved runs: hourly jobs, broker events and minute covers. */
module ChaseRuns {
  import opened Options
  import opened ChaseFill
  import opened ChaseDesk
  import opened ChaseOrders
  import ChaseSignal

  // ---- quantities ----

  /** Shares an order may still move. */
  function Left(o: Order): nat { if Working(o) && o.quantity > o.filled then o.quantity - o.filled else 0 }

  function LeftOn(symbol: string, side: Side): Order -> nat { (o: Order) => if On(o, symbol, side) then Left(o) else 0 }

  function EntryLeftOn(symbol: string, side: Side): Order -> nat {
    (o: Order) => if On(o, symbol, side) && o.purpose == ENTRY then Left(o) else 0
  }

  /** The same without the untriggered Chase order that stop keeping sees. */
  function UnseenOn(symbol: string, side: Side): Order -> nat {
    (o: Order) => if On(o, symbol, side) && !(o.status == TRIGGER_PENDING && o.chaseTag) then Left(o) else 0
  }

  function UnseenEntryOn(symbol: string, side: Side): Order -> nat {
    (o: Order) => if On(o, symbol, side) && !(o.status == TRIGGER_PENDING && o.chaseTag) && o.purpose == ENTRY then Left(o) else 0
  }

  function Total(orders: seq<Order>, size: Order -> nat): nat {
    if |orders| == 0 then 0 else Total(orders[..|orders| - 1], size) + size(orders[|orders| - 1])
  }

  lemma TotalAppended(orders: seq<Order>, o: Order, size: Order -> nat)
    ensures Total(orders + [o], size) == Total(orders, size) + size(o)
  {
    assert (orders + [o])[..|orders|] == orders;
  }

  lemma {:induction false} TotalReplaced(orders: seq<Order>, k: nat, o: Order, size: Order -> nat)
    requires k < |orders|
    ensures Total(orders[k := o], size) == Total(orders, size) - size(orders[k]) + size(o)
    ensures Total(orders, size) >= size(orders[k])
  {
    var n := |orders| - 1;
    if k < n {
      TotalReplaced(orders[..n], k, o, size);
      assert orders[k := o][..n] == orders[..n][k := o];
    } else {
      assert orders[k := o][..n] == orders[..n];
    }
  }

  lemma {:induction false} TotalAgrees(orders: seq<Order>, a: Order -> nat, b: Order -> nat)
    requires forall i :: 0 <= i < |orders| ==> a(orders[i]) == b(orders[i])
    ensures Total(orders, a) == Total(orders, b)
  {
    if |orders| > 0 { TotalAgrees(orders[..|orders| - 1], a, b); }
  }

  lemma {:induction false} TotalSmaller(orders: seq<Order>, a: Order -> nat, b: Order -> nat)
    requires forall i :: 0 <= i < |orders| ==> a(orders[i]) <= b(orders[i])
    ensures Total(orders, a) <= Total(orders, b)
  {
    if |orders| > 0 { TotalSmaller(orders[..|orders| - 1], a, b); }
  }

  lemma {:induction false} TotalZero(orders: seq<Order>, size: Order -> nat)
    requires forall i :: 0 <= i < |orders| ==> size(orders[i]) == 0
    ensures Total(orders, size) == 0
  {
    if |orders| > 0 { TotalZero(orders[..|orders| - 1], size); }
  }

  lemma {:induction false} EntriesAreOutstanding(orders: seq<Order>, symbol: string, side: Side)
    ensures Total(orders, EntryLeftOn(symbol, side)) <= Total(orders, LeftOn(symbol, side))
  {
    if |orders| > 0 { EntriesAreOutstanding(orders[..|orders| - 1], symbol, side); }
  }

  function Outstanding(d: Desk, symbol: string, side: Side): nat { Total(d.orders, LeftOn(symbol, side)) }

  function EntryOutstanding(d: Desk, symbol: string, side: Side): nat { Total(d.orders, EntryLeftOn(symbol, side)) }

  /** The position counted in the direction of a side. */
  function Toward(side: Side, n: int): int { if side == BUY then n else -n }

  /** Position plus everything working in one direction fits the cap, and so do the entries alone. */
  ghost predicate Fits(d: Desk, symbol: string, side: Side, cap: nat) {
    && Toward(side, Net(d, symbol)) + Outstanding(d, symbol, side) <= cap
    && EntryOutstanding(d, symbol, side) <= cap
  }

  /** Each contract has its own cap. */
  ghost predicate Bounded(d: Desk, caps: string -> nat) {
    forall symbol, side :: symbol != "" ==> Fits(d, symbol, side, caps(symbol))
  }

  // ---- steps ----

  datatype Step =
    | Hourly(w: World)
    | Fire(i: nat)            // a trigger is hit
    | Fill(i: nat, n: nat)
    | Lapse(i: nat)           // the broker drops an order
    | Cover(symbol: string)   // the minute worker's market cover of the whole position

  function Filled(o: Order, n: nat): Order {
    o.(filled := o.filled + n, status := if o.filled + n >= o.quantity then COMPLETE else o.status)
  }

  function CoverSide(n: int): Side { if n > 0 then SELL else BUY }

  function CoverOrder(d: Desk, symbol: string): Order {
    Order(symbol, CoverSide(Net(d, symbol)), OPEN, MARKET, FLATTEN, Abs(Net(d, symbol)), 0, 0.0, 0.0, true, None)
  }

  function Next(d: Desk, step: Step): Desk {
    match step
    case Hourly(w) => Tick(d, w)
    case Fire(i) => if i < |d.orders| then d.(orders := d.orders[i := d.orders[i].(status := OPEN)]) else d
    case Fill(i, n) =>
      if i < |d.orders| then
        var o := d.orders[i];
        d.(orders := d.orders[i := Filled(o, n)], net := d.net[o.symbol := Net(d, o.symbol) + Toward(o.side, n)])
      else d
    case Lapse(i) => if i < |d.orders| then d.(orders := d.orders[i := Dead(d.orders[i])]) else d
    case Cover(symbol) => d.(orders := d.orders + [CoverOrder(d, symbol)])
  }

  /** What can happen next, at the desk or at the broker. */
  ghost predicate Possible(d: Desk, step: Step) {
    match step
    case Hourly(w) => NamedBars(w)
    case Fire(i) => i < |d.orders| && d.orders[i].status == TRIGGER_PENDING
    case Fill(i, n) => i < |d.orders| && Working(d.orders[i]) && d.orders[i].status != TRIGGER_PENDING
                       && 1 <= n && d.orders[i].filled + n <= d.orders[i].quantity
    case Lapse(i) => i < |d.orders| && Working(d.orders[i])
    case Cover(symbol) => symbol != "" && Net(d, symbol) != 0 && !HasWorking(d.orders, symbol, CoverSide(Net(d, symbol)))
  }

  /** Every listed contract's full entry fits its cap: lots times lot size. */
  ghost predicate EntriesWithin(w: World, caps: string -> nat) {
    forall b :: b in w.bars && b.underlying.Some? ==> EntryQty(SettingsOf(w, b.underlying.value), b) <= caps(b.symbol)
  }

  /**
   * If this hour's stop call sends or resizes an exit, that exit still fits beside the working exits
   * that stop keeping does not see: triggered stops and covers. `HourKeepsBoundExactly` shows that the
   * bound is lost without it.
   */
  predicate RoomForExit(d: Desk, w: World, caps: string -> nat) {
    match StopCallOf(d, w)
    case None => true
    case Some(c) => Resizes(d, w, c) ==> ExitFits(d, w, c, caps(c.symbol))
  }

  predicate ExitFits(d: Desk, w: World, c: StopCall, cap: nat) {
    && Toward(c.side, Net(d, c.symbol)) + Total(d.orders, UnseenOn(c.symbol, c.side)) + c.quantity <= cap
    && (ResizesEntry(d, w, c) ==> Total(d.orders, UnseenEntryOn(c.symbol, c.side)) + c.quantity <= cap)
  }

  /** What stop keeping finds and resizes is an entry order of the exit side. */
  predicate ResizesEntry(d: Desk, w: World, c: StopCall) {
    var k := FirstWhere(d.orders, ChaseStop(c.symbol, c.side));
    k < |d.orders| && w.modifyWorks && d.orders[k].purpose == ENTRY
  }

  ghost predicate Enabled(d: Desk, step: Step, caps: string -> nat) {
    Possible(d, step) && (step.Hourly? ==> EntriesWithin(step.w, caps) && RoomForExit(d, step.w, caps))
  }

  /** Named orders, and at most one untriggered Chase order per symbol and side. */
  ghost predicate WellKept(d: Desk) {
    && (forall i :: 0 <= i < |d.orders| ==> d.orders[i].symbol != "")
    && (d.row.status != AWAITING_SIGNAL ==> d.row.symbol != "")
    && OneStop(d.orders)
  }

  /** Orders i and j are not both untriggered Chase orders of one symbol and side. */
  ghost predicate OneOf(orders: seq<Order>, i: nat, j: nat)
    requires i < |orders| && j < |orders|
  {
    On(orders[j], orders[i].symbol, orders[i].side) ==>
      !(ChaseStop(orders[i].symbol, orders[i].side)(orders[i]) && ChaseStop(orders[j].symbol, orders[j].side)(orders[j]))
  }

  ghost predicate OneStop(orders: seq<Order>) {
    forall i, j :: 0 <= i < j < |orders| ==> OneOf(orders, i, j)
  }

  // ---- one stop ----

  /** An order that is rewritten in place and was no looser a Chase stop before. */
  lemma ReplacedKeepsOneStop(orders: seq<Order>, k: nat, o: Order)
    requires OneStop(orders) && k < |orders| && o.symbol == orders[k].symbol && o.side == orders[k].side
    requires ChaseStop(o.symbol, o.side)(o) ==> ChaseStop(o.symbol, o.side)(orders[k])
    ensures OneStop(orders[k := o])
  {
    var next := orders[k := o];
    forall i, j | 0 <= i < j < |next| ensures OneOf(next, i, j) {
      assert OneOf(orders, i, j);
    }
  }

  lemma AppendedKeepsOneStop(orders: seq<Order>, o: Order)
    requires OneStop(orders) && (ChaseStop(o.symbol, o.side)(o) ==> NoChaseStop(orders, o.symbol, o.side))
    ensures OneStop(orders + [o])
  {
    var next := orders + [o];
    forall i, j | 0 <= i < j < |next| ensures OneOf(next, i, j) {
      if j < |orders| { assert OneOf(orders, i, j); }
    }
  }

  lemma NoneWorkingNoStop(orders: seq<Order>, symbol: string, side: Side)
    requires !HasWorking(orders, symbol, side)
    ensures NoChaseStop(orders, symbol, side)
  {
  }

  lemma MoveKeepsOneStop(d: Desk, w: World, call: Option<StopCall>, m: Move, stop: real)
    requires OneStop(d.orders) && Justified(d, w, call, m, stop)
    ensures OneStop(Applied(d.orders, m))
  {
    var left := ChaseOrders.Dropped(d.orders, m.drop);
    if m.drop.Some? {
      ReplacedKeepsOneStop(d.orders, m.drop.value, Dead(d.orders[m.drop.value]));
    }
    match m.change
    case Nothing =>
    case Enter(o) =>
      NoneWorkingNoStop(left, o.symbol, o.side);
      AppendedKeepsOneStop(left, o);
    case Amend(k, o) =>
      ReplacedKeepsOneStop(left, k, o);
    case Exit(o) =>
      if m.drop.Some? {
        DroppedWasTheStop(d, m.drop.value, o.symbol, o.side);
      }
      AppendedKeepsOneStop(left, o);
  }

  /** Under OneStop, cancelling the first Chase stop leaves none. */
  lemma DroppedWasTheStop(d: Desk, k: nat, symbol: string, side: Side)
    requires OneStop(d.orders) && k < |d.orders| && k == FirstWhere(d.orders, ChaseStop(symbol, side))
    ensures NoChaseStop(d.orders[k := Dead(d.orders[k])], symbol, side)
  {
    var left := d.orders[k := Dead(d.orders[k])];
    forall i | 0 <= i < |left| ensures !ChaseStop(symbol, side)(left[i]) {
      if i > k { assert OneOf(d.orders, k, i); }
    }
  }

  lemma StepKeepsWell(d: Desk, step: Step)
    requires WellKept(d) && Possible(d, step)
    ensures WellKept(Next(d, step))
  {
    match step
    case Hourly(w) => HourlyKeepsWell(d, w);
    case Fire(i) => ReplacedKeepsOneStop(d.orders, i, d.orders[i].(status := OPEN));
    case Fill(i, n) => ReplacedKeepsOneStop(d.orders, i, Filled(d.orders[i], n));
    case Lapse(i) => ReplacedKeepsOneStop(d.orders, i, Dead(d.orders[i]));
    case Cover(symbol) => AppendedKeepsOneStop(d.orders, CoverOrder(d, symbol));
  }

  lemma HourlyKeepsWell(d: Desk, w: World)
    requires WellKept(d) && NamedBars(w)
    ensures WellKept(Tick(d, w))
  {
    var m := TickMove(d, w);
    MoveKeepsOneStop(d, w, StopCallOf(d, w), m, StopOr0(Tick(d, w).row));
    MoveKeepsNames(d, w, m, StopOr0(Tick(d, w).row));
    TickKeepsSymbol(d, w);
  }

  lemma MoveKeepsNames(d: Desk, w: World, m: Move, stop: real)
    requires (forall i :: 0 <= i < |d.orders| ==> d.orders[i].symbol != "") && NamedBars(w)
    requires Justified(d, w, StopCallOf(d, w), m, stop)
    ensures forall i :: 0 <= i < |Applied(d.orders, m)| ==> Applied(d.orders, m)[i].symbol != ""
  {
    var left := ChaseOrders.Dropped(d.orders, m.drop);
    assert forall i :: 0 <= i < |left| ==> left[i].symbol == d.orders[i].symbol;
    if m.change.Exit? {
      BarIsListed(w.bars, d.row.symbol, DefaultBar(w));
    }
  }

  lemma TickKeepsSymbol(d: Desk, w: World)
    requires d.row.status != AWAITING_SIGNAL ==> d.row.symbol != ""
    requires NamedBars(w)
    ensures Tick(d, w).row.status != AWAITING_SIGNAL ==> Tick(d, w).row.symbol != ""
  {
    if BlocksEntries(SettingsOf(w, w.book)) && !InPosition(d.row.status) {
    } else if |w.bars| == 0 {
    } else {
      assert DefaultBar(w) in w.bars;
      if InPosition(d.row.status) {
        ChaseSignal.TrailWritesStop(d, w);
        AwaitKeepsSymbol(Write(d, BackToWaiting(d.row, w.today)), w);
      } else if d.row.status == AWAITING_SIGNAL {
        AwaitKeepsSymbol(d, w);
      } else {
        FillKeepsSymbol(d, w);
      }
    }
  }

  lemma FillKeepsSymbol(d: Desk, w: World)
    requires |w.bars| > 0 && DefaultBar(w).symbol != "" && Pending(d.row.status) && d.row.symbol != ""
    ensures AwaitFill(d, w).row.symbol != ""
  {
    var b := BarOf(w, d.row.symbol);
    if SideHasPosition(d.row.status == AWAITING_LONG, Net(d, d.row.symbol)) {
      ChaseSignal.PromoteWritesStatus(d, w);
    } else if w.hour != 16 && Invalidated(d.row, b) {
      var out := Withdraw(d, w, b.symbol);
      assert out.row.symbol == d.row.symbol;
      AwaitKeepsSymbol(out, w);
    }
  }

  lemma AwaitKeepsSymbol(d: Desk, w: World)
    requires |w.bars| > 0 && DefaultBar(w).symbol != ""
    ensures AwaitSignal(d, w).row.symbol == "" ==> AwaitSignal(d, w).row == d.row
  {
  }

  // ---- no pyramiding ----

  lemma DroppedFits(d: Desk, drop: Option<nat>, symbol: string, side: Side, cap: nat)
    requires Fits(d, symbol, side, cap)
    ensures Fits(d.(orders := ChaseOrders.Dropped(d.orders, drop)), symbol, side, cap)
    ensures Total(ChaseOrders.Dropped(d.orders, drop), LeftOn(symbol, side)) <= Outstanding(d, symbol, side)
  {
    if drop.Some? && drop.value < |d.orders| {
      TotalReplaced(d.orders, drop.value, Dead(d.orders[drop.value]), LeftOn(symbol, side));
      TotalReplaced(d.orders, drop.value, Dead(d.orders[drop.value]), EntryLeftOn(symbol, side));
    }
  }

  lemma NothingOutstanding(orders: seq<Order>, symbol: string, side: Side)
    requires !HasWorking(orders, symbol, side)
    ensures Total(orders, LeftOn(symbol, side)) == 0 && Total(orders, EntryLeftOn(symbol, side)) == 0
  {
    TotalZero(orders, LeftOn(symbol, side));
    TotalZero(orders, EntryLeftOn(symbol, side));
  }

  lemma AddedFits(d: Desk, o: Order, symbol: string, side: Side, cap: nat)
    requires Fits(d, symbol, side, cap) && o.filled == 0
    requires On(o, symbol, side) ==> !HasWorking(d.orders, symbol, side) && Toward(side, Net(d, symbol)) + o.quantity <= cap && o.quantity <= cap
    ensures Fits(d.(orders := d.orders + [o]), symbol, side, cap)
  {
    TotalAppended(d.orders, o, LeftOn(symbol, side));
    TotalAppended(d.orders, o, EntryLeftOn(symbol, side));
    if On(o, symbol, side) { NothingOutstanding(d.orders, symbol, side); }
  }

  /** Where no untriggered Chase order is left, all that works is unseen, and a cancelled one was not counted as such. */
  lemma AllUnseen(orders: seq<Order>, symbol: string, side: Side)
    requires NoChaseStop(orders, symbol, side)
    ensures Total(orders, LeftOn(symbol, side)) == Total(orders, UnseenOn(symbol, side))
    ensures Total(orders, EntryLeftOn(symbol, side)) == Total(orders, UnseenEntryOn(symbol, side))
  {
    TotalAgrees(orders, LeftOn(symbol, side), UnseenOn(symbol, side));
    TotalAgrees(orders, EntryLeftOn(symbol, side), UnseenEntryOn(symbol, side));
  }

  lemma DroppedUnseen(orders: seq<Order>, k: nat, symbol: string, side: Side)
    requires k < |orders|
    requires ChaseStop(symbol, side)(orders[k])
    ensures Total(orders[k := Dead(orders[k])], UnseenOn(symbol, side)) == Total(orders, UnseenOn(symbol, side))
    ensures Total(orders[k := Dead(orders[k])], UnseenEntryOn(symbol, side)) == Total(orders, UnseenEntryOn(symbol, side))
  {
    TotalReplaced(orders, k, Dead(orders[k]), UnseenOn(symbol, side));
    TotalReplaced(orders, k, Dead(orders[k]), UnseenEntryOn(symbol, side));
  }

  /** The one untriggered Chase order of its side is resized. */
  lemma ResizedTotals(orders: seq<Order>, k: nat, o: Order, symbol: string, side: Side)
    requires OneStop(orders) && k < |orders| && ChaseStop(symbol, side)(orders[k]) && On(o, symbol, side)
    ensures Total(orders[k := o], LeftOn(symbol, side)) == Total(orders, UnseenOn(symbol, side)) + Left(o)
    ensures Total(orders[k := o], EntryLeftOn(symbol, side))
         == Total(orders, UnseenEntryOn(symbol, side)) + (if o.purpose == ENTRY then Left(o) else 0)
  {
    var rest := orders[k := Dead(orders[k])];
    TotalReplaced(orders, k, o, LeftOn(symbol, side));
    TotalReplaced(orders, k, o, EntryLeftOn(symbol, side));
    TotalReplaced(orders, k, Dead(orders[k]), LeftOn(symbol, side));
    TotalReplaced(orders, k, Dead(orders[k]), EntryLeftOn(symbol, side));
    OnlyStopDropped(orders, k, symbol, side);
    AllUnseen(rest, symbol, side);
    DroppedUnseen(orders, k, symbol, side);
  }

  lemma OnlyStopDropped(orders: seq<Order>, k: nat, symbol: string, side: Side)
    requires OneStop(orders) && k < |orders| && ChaseStop(symbol, side)(orders[k])
    ensures NoChaseStop(orders[k := Dead(orders[k])], symbol, side)
  {
    var rest := orders[k := Dead(orders[k])];
    forall i | 0 <= i < |rest| ensures !ChaseStop(symbol, side)(rest[i]) {
      if i != k { assert OneOf(orders, if i < k then i else k, if i < k then k else i); }
    }
  }

  /** A new exit stands beside the unseen ones, whether or not a working stop was dropped for it. */
  lemma ExitTotals(d: Desk, w: World, call: Option<StopCall>, m: Move, o: Order, stop: real)
    requires OneStop(d.orders) && Justified(d, w, call, m, stop) && m.change == Exit(o)
    ensures Total(Applied(d.orders, m), LeftOn(o.symbol, o.side)) == Total(d.orders, UnseenOn(o.symbol, o.side)) + Left(o)
    ensures Total(Applied(d.orders, m), EntryLeftOn(o.symbol, o.side)) == Total(d.orders, UnseenEntryOn(o.symbol, o.side))
  {
    var left := ChaseOrders.Dropped(d.orders, m.drop);
    TotalAppended(left, o, LeftOn(o.symbol, o.side));
    TotalAppended(left, o, EntryLeftOn(o.symbol, o.side));
    if m.drop.Some? {
      DroppedWasTheStop(d, m.drop.value, o.symbol, o.side);
      DroppedUnseen(d.orders, m.drop.value, o.symbol, o.side);
    }
    AllUnseen(left, o.symbol, o.side);
  }

  lemma UnseenEntriesWithin(orders: seq<Order>, symbol: string, side: Side)
    ensures Total(orders, UnseenEntryOn(symbol, side)) <= Total(orders, EntryLeftOn(symbol, side))
  {
    TotalSmaller(orders, UnseenEntryOn(symbol, side), EntryLeftOn(symbol, side));
  }

  /** Contracts and sides that the move does not name only lose. */
  lemma ElsewhereFits(d: Desk, m: Move, o: Order, symbol: string, side: Side, cap: nat)
    requires Fits(d, symbol, side, cap) && !On(o, symbol, side)
    requires m.change == Exit(o) || (m.change.Amend? && m.change.to == o && m.change.k < |d.orders| && m.drop.None?
                                     && On(d.orders[m.change.k], o.symbol, o.side))
    ensures Fits(d.(orders := Applied(d.orders, m)), symbol, side, cap)
  {
    DroppedFits(d, m.drop, symbol, side, cap);
    if m.change.Exit? {
      TotalAppended(ChaseOrders.Dropped(d.orders, m.drop), o, LeftOn(symbol, side));
      TotalAppended(ChaseOrders.Dropped(d.orders, m.drop), o, EntryLeftOn(symbol, side));
    } else {
      TotalReplaced(d.orders, m.change.k, o, LeftOn(symbol, side));
      TotalReplaced(d.orders, m.change.k, o, EntryLeftOn(symbol, side));
    }
  }

  /** Working exits that are all untriggered Chase orders leave room, when the book's own contract is loaded. */
  ghost predicate ExitsArmed(d: Desk) {
    forall i :: 0 <= i < |d.orders| && Working(d.orders[i]) && ExitSideHeld(d, d.orders[i].symbol, d.orders[i].side) ==>
      ChaseStop(d.orders[i].symbol, d.orders[i].side)(d.orders[i])
  }

  lemma ArmedExitsLeaveRoom(d: Desk, w: World, caps: string -> nat)
    requires ExitsArmed(d) && Bounded(d, caps) && d.row.symbol != ""
    requires |w.bars| > 0 ==> BarOf(w, d.row.symbol).symbol == d.row.symbol
    ensures RoomForExit(d, w, caps)
  {
    if StopCallOf(d, w).Some? && Resizes(d, w, StopCallOf(d, w).value) {
      var c := StopCallOf(d, w).value;
      assert Fits(d, c.symbol, BUY, caps(c.symbol)) && Fits(d, c.symbol, SELL, caps(c.symbol));
      TotalZero(d.orders, UnseenOn(c.symbol, c.side));
      TotalZero(d.orders, UnseenEntryOn(c.symbol, c.side));
    }
  }

  /** A new trigger or limit leaves the quantities alone. */
  lemma SameSizeFits(d: Desk, k: nat, o: Order, symbol: string, side: Side, cap: nat)
    requires Fits(d, symbol, side, cap) && k < |d.orders|
    requires o == d.orders[k].(trigger := o.trigger, limit := o.limit)
    ensures Fits(d.(orders := d.orders[k := o]), symbol, side, cap)
  {
    TotalReplaced(d.orders, k, o, LeftOn(symbol, side));
    TotalReplaced(d.orders, k, o, EntryLeftOn(symbol, side));
  }

  lemma EntryFits(d: Desk, w: World, call: Option<StopCall>, m: Move, symbol: string, side: Side, caps: string -> nat, stop: real)
    requires Fits(d, symbol, side, caps(symbol)) && Justified(d, w, call, m, stop) && m.change.Enter? && EntriesWithin(w, caps)
    ensures Fits(d.(orders := Applied(d.orders, m)), symbol, side, caps(symbol))
  {
    var o := m.change.entry;
    DroppedFits(d, m.drop, symbol, side, caps(symbol));
    var b :| b in w.bars && b.symbol == o.symbol && b.underlying.Some?
             && o.quantity == EntryQty(SettingsOf(w, b.underlying.value), b);
    AddedFits(d.(orders := ChaseOrders.Dropped(d.orders, m.drop)), o, symbol, side, caps(symbol));
  }

  lemma ExitMoveFits(d: Desk, w: World, m: Move, symbol: string, side: Side, caps: string -> nat, stop: real)
    requires Fits(d, symbol, side, caps(symbol)) && OneStop(d.orders) && RoomForExit(d, w, caps)
    requires Justified(d, w, StopCallOf(d, w), m, stop) && m.change.Exit?
    ensures Fits(d.(orders := Applied(d.orders, m)), symbol, side, caps(symbol))
  {
    var o := m.change.cover;
    if On(o, symbol, side) {
      ExitTotals(d, w, StopCallOf(d, w), m, o, stop);
      UnseenEntriesWithin(d.orders, symbol, side);
    } else {
      ElsewhereFits(d, m, o, symbol, side, caps(symbol));
    }
  }

  lemma AmendMoveFits(d: Desk, w: World, m: Move, symbol: string, side: Side, caps: string -> nat, stop: real)
    requires Fits(d, symbol, side, caps(symbol)) && OneStop(d.orders) && RoomForExit(d, w, caps)
    requires Justified(d, w, StopCallOf(d, w), m, stop) && m.change.Amend?
    ensures Fits(d.(orders := Applied(d.orders, m)), symbol, side, caps(symbol))
  {
    var k, o := m.change.k, m.change.to;
    if o.quantity == d.orders[k].quantity {
      SameSizeFits(d, k, o, symbol, side, caps(symbol));
    } else if On(o, symbol, side) {
      ResizedTotals(d.orders, k, o, symbol, side);
      UnseenEntriesWithin(d.orders, symbol, side);
    } else {
      ElsewhereFits(d, m, o, symbol, side, caps(symbol));
    }
  }

  lemma MoveFits(d: Desk, w: World, m: Move, symbol: string, side: Side, caps: string -> nat, stop: real)
    requires Fits(d, symbol, side, caps(symbol)) && OneStop(d.orders)
    requires EntriesWithin(w, caps) && RoomForExit(d, w, caps) && Justified(d, w, StopCallOf(d, w), m, stop)
    ensures Fits(d.(orders := Applied(d.orders, m)), symbol, side, caps(symbol))
  {
    match m.change
    case Nothing => DroppedFits(d, m.drop, symbol, side, caps(symbol));
    case Enter(_) => EntryFits(d, w, StopCallOf(d, w), m, symbol, side, caps, stop);
    case Amend(_, _) => AmendMoveFits(d, w, m, symbol, side, caps, stop);
    case Exit(_) => ExitMoveFits(d, w, m, symbol, side, caps, stop);
  }

  lemma FillFits(d: Desk, i: nat, n: nat, symbol: string, side: Side, cap: nat)
    requires WellKept(d) && Fits(d, symbol, side, cap) && Possible(d, Fill(i, n)) && symbol != ""
    ensures Fits(Next(d, Fill(i, n)), symbol, side, cap)
  {
    TotalReplaced(d.orders, i, Filled(d.orders[i], n), LeftOn(symbol, side));
    TotalReplaced(d.orders, i, Filled(d.orders[i], n), EntryLeftOn(symbol, side));
  }

  lemma StatusFits(d: Desk, i: nat, status: OrderStatus, symbol: string, side: Side, cap: nat)
    requires Fits(d, symbol, side, cap) && i < |d.orders| && Working(d.orders[i])
    ensures Fits(d.(orders := d.orders[i := d.orders[i].(status := status)]), symbol, side, cap)
  {
    TotalReplaced(d.orders, i, d.orders[i].(status := status), LeftOn(symbol, side));
    TotalReplaced(d.orders, i, d.orders[i].(status := status), EntryLeftOn(symbol, side));
  }

  lemma StepKeepsBounded(d: Desk, step: Step, caps: string -> nat)
    requires WellKept(d) && Bounded(d, caps) && Enabled(d, step, caps)
    ensures Bounded(Next(d, step), caps)
  {
    forall symbol: string, side | symbol != "" ensures Fits(Next(d, step), symbol, side, caps(symbol)) {
      assert Fits(d, symbol, side, caps(symbol));
      match step
      case Hourly(w) =>
        var m := TickMove(d, w);
        MoveFits(d, w, m, symbol, side, caps, StopOr0(Tick(d, w).row));
      case Fire(i) => StatusFits(d, i, OPEN, symbol, side, caps(symbol));
      case Fill(i, n) => FillFits(d, i, n, symbol, side, caps(symbol));
      case Lapse(i) => StatusFits(d, i, CANCELLED, symbol, side, caps(symbol));
      case Cover(s) =>
        assert Fits(d, s, BUY, caps(s)) && Fits(d, s, SELL, caps(s));
        AddedFits(d, CoverOrder(d, s), symbol, side, caps(symbol));
    }
  }

  lemma ResizingMove(d: Desk, w: World, c: StopCall, m: Move, stop: real)
    requires Resizes(d, w, c) && Justified(d, w, Some(c), m, stop) && (m.change.Exit? || m.change.Amend?)
    ensures m.change.Amend? ==> ChaseStop(c.symbol, c.side)(d.orders[m.change.k]) && m.change.to.filled == d.orders[m.change.k].filled
                                && m.change.to.status == TRIGGER_PENDING && m.change.to.purpose == d.orders[m.change.k].purpose
    ensures ResizesEntry(d, w, c) ==> m.change.Amend? && m.change.to.purpose == ENTRY
  {
  }

  /** Triggers that have not fired have filled nothing. */
  ghost predicate UnfiredUnfilled(orders: seq<Order>) {
    forall i :: 0 <= i < |orders| && orders[i].status == TRIGGER_PENDING ==> orders[i].filled == 0
  }

  lemma ResizingTotals(d: Desk, w: World, c: StopCall, m: Move, stop: real)
    requires OneStop(d.orders) && UnfiredUnfilled(d.orders)
    requires Resizes(d, w, c) && Justified(d, w, Some(c), m, stop) && (m.change.Exit? || m.change.Amend?)
    ensures Total(Applied(d.orders, m), LeftOn(c.symbol, c.side)) == Total(d.orders, UnseenOn(c.symbol, c.side)) + c.quantity
    ensures ResizesEntry(d, w, c) ==>
      Total(Applied(d.orders, m), EntryLeftOn(c.symbol, c.side)) == Total(d.orders, UnseenEntryOn(c.symbol, c.side)) + c.quantity
  {
    ResizingMove(d, w, c, m, stop);
    if m.change.Exit? {
      ExitTotals(d, w, Some(c), m, m.change.cover, stop);
    } else {
      ResizedTotals(d.orders, m.change.k, m.change.to, c.symbol, c.side);
    }
  }

  /** The stop call's own contract and side after an hour that sends or resizes. */
  lemma ResizedHour(d: Desk, w: World, c: StopCall)
    requires OneStop(d.orders) && UnfiredUnfilled(d.orders) && StopCallOf(d, w) == Some(c) && Resizes(d, w, c)
    ensures Outstanding(Tick(d, w), c.symbol, c.side) == Total(d.orders, UnseenOn(c.symbol, c.side)) + c.quantity
    ensures ResizesEntry(d, w, c) ==>
      EntryOutstanding(Tick(d, w), c.symbol, c.side) == Total(d.orders, UnseenEntryOn(c.symbol, c.side)) + c.quantity
  {
    var m := TickMove(d, w);
    ResizingTotals(d, w, c, m, StopOr0(Tick(d, w).row));
  }

  /**
   * An hourly run keeps the bound exactly when its stop call, if it sends or resizes an exit,
   * has room for it beside the exits that have triggered and not filled.
   */
  lemma HourKeepsBoundExactly(d: Desk, w: World, caps: string -> nat)
    requires WellKept(d) && Bounded(d, caps) && NamedBars(w) && EntriesWithin(w, caps) && UnfiredUnfilled(d.orders)
    ensures Bounded(Tick(d, w), caps) <==> RoomForExit(d, w, caps)
  {
    if RoomForExit(d, w, caps) {
      StepKeepsBounded(d, Hourly(w), caps);
    } else {
      var c := StopCallOf(d, w).value;
      ResizedHour(d, w, c);
      BarIsListed(w.bars, d.row.symbol, DefaultBar(w));
      var m := TickMove(d, w);
      assert !Fits(Tick(d, w), c.symbol, c.side, caps(c.symbol));
    }
  }

  function Run(d: Desk, steps: seq<Step>): Desk {
    if |steps| == 0 then d else Next(Run(d, steps[..|steps| - 1]), steps[|steps| - 1])
  }

  ghost predicate PossibleRun(d: Desk, steps: seq<Step>) {
    |steps| > 0 ==> PossibleRun(d, steps[..|steps| - 1]) && Possible(Run(d, steps[..|steps| - 1]), steps[|steps| - 1])
  }

  ghost predicate EnabledRun(d: Desk, steps: seq<Step>, caps: string -> nat) {
    |steps| > 0 ==>
      EnabledRun(d, steps[..|steps| - 1], caps) && Enabled(Run(d, steps[..|steps| - 1]), steps[|steps| - 1], caps)
  }

  lemma {:induction false} RunKeepsWell(d: Desk, steps: seq<Step>)
    requires WellKept(d) && PossibleRun(d, steps)
    ensures WellKept(Run(d, steps))
  {
    if |steps| > 0 {
      RunKeepsWell(d, steps[..|steps| - 1]);
      StepKeepsWell(Run(d, steps[..|steps| - 1]), steps[|steps| - 1]);
    }
  }

  lemma {:induction false} RunKeepsBounded(d: Desk, steps: seq<Step>, caps: string -> nat)
    requires WellKept(d) && Bounded(d, caps) && EnabledRun(d, steps, caps)
    ensures WellKept(Run(d, steps)) && Bounded(Run(d, steps), caps)
  {
    if |steps| > 0 {
      var before := Run(d, steps[..|steps| - 1]);
      RunKeepsBounded(d, steps[..|steps| - 1], caps);
      StepKeepsWell(before, steps[|steps| - 1]);
      StepKeepsBounded(before, steps[|steps| - 1], caps);
    }
  }

  lemma ReplacedUnfired(orders: seq<Order>, k: nat, o: Order)
    requires UnfiredUnfilled(orders) && k < |orders| && (o.status == TRIGGER_PENDING ==> o.filled == 0)
    ensures UnfiredUnfilled(orders[k := o])
  {
  }

  lemma StepKeepsUnfired(d: Desk, step: Step)
    requires UnfiredUnfilled(d.orders) && Possible(d, step)
    ensures UnfiredUnfilled(Next(d, step).orders)
  {
    match step
    case Hourly(w) =>
      var m := TickMove(d, w);
      assert UnfiredUnfilled(ChaseOrders.Dropped(d.orders, m.drop));
    case Fire(i) => ReplacedUnfired(d.orders, i, d.orders[i].(status := OPEN));
    case Fill(i, n) => ReplacedUnfired(d.orders, i, Filled(d.orders[i], n));
    case Lapse(i) => ReplacedUnfired(d.orders, i, Dead(d.orders[i]));
    case Cover(_) =>
  }

  lemma {:induction false} RunKeepsUnfired(d: Desk, steps: seq<Step>)
    requires UnfiredUnfilled(d.orders) && PossibleRun(d, steps)
    ensures UnfiredUnfilled(Run(d, steps).orders)
  {
    if |steps| > 0 {
      RunKeepsUnfired(d, steps[..|steps| - 1]);
      StepKeepsUnfired(Run(d, steps[..|steps| - 1]), steps[|steps| - 1]);
    }
  }

  /** Bounded at the end and at every point before. */
  ghost predicate BoundedThrough(d: Desk, steps: seq<Step>, caps: string -> nat) {
    Bounded(Run(d, steps), caps) && (|steps| > 0 ==> BoundedThrough(d, steps[..|steps| - 1], caps))
  }

  /**
   * Over any possible interleaving whose entries fit their caps: the bound holds at every point exactly
   * when every hourly run has room for the exit that its stop call sends or resizes.
   */
  lemma {:induction false} RunIsBoundedExactly(d: Desk, steps: seq<Step>, caps: string -> nat)
    requires WellKept(d) && UnfiredUnfilled(d.orders) && Bounded(d, caps) && PossibleRun(d, steps)
    requires forall step :: step in steps && step.Hourly? ==> EntriesWithin(step.w, caps)
    ensures BoundedThrough(d, steps, caps) <==> EnabledRun(d, steps, caps)
  {
    if |steps| > 0 {
      var first, last := steps[..|steps| - 1], steps[|steps| - 1];
      assert last in steps;
      RunIsBoundedExactly(d, first, caps);
      if EnabledRun(d, first, caps) {
        RunKeepsWell(d, first);
        RunKeepsUnfired(d, first);
        if last.Hourly? {
          HourKeepsBoundExactly(Run(d, first), last.w, caps);
        } else {
          StepKeepsBounded(Run(d, first), last, caps);
        }
      }
    }
  }

  /**
   * No pyramiding: over every such interleaving a long position plus the working buy
   * entries never exceed lots times lot size of that contract, and the same for short and sell entries.
   */
  lemma NoPyramiding(d: Desk, steps: seq<Step>, caps: string -> nat, symbol: string)
    requires WellKept(d) && Bounded(d, caps) && EnabledRun(d, steps, caps) && symbol != ""
    ensures NoMoreThan(Run(d, steps), caps(symbol), symbol)
  {
    RunKeepsBounded(d, steps, caps);
    BoundedHoldsNoMore(Run(d, steps), caps, symbol);
  }

  /** A position and the working entries that would add to it stay within the cap, long and short. */
  ghost predicate NoMoreThan(d: Desk, cap: nat, symbol: string) {
    && Max(Net(d, symbol), 0) + EntryOutstanding(d, symbol, BUY) <= cap
    && Max(-Net(d, symbol), 0) + EntryOutstanding(d, symbol, SELL) <= cap
  }

  lemma BoundedHoldsNoMore(d: Desk, caps: string -> nat, symbol: string)
    requires Bounded(d, caps) && symbol != ""
    ensures NoMoreThan(d, caps(symbol), symbol)
  {
    FitsBoundsEntries(d, symbol, BUY, caps(symbol));
    FitsBoundsEntries(d, symbol, SELL, caps(symbol));
  }

  lemma FitsBoundsEntries(d: Desk, symbol: string, side: Side, cap: nat)
    requires Fits(d, symbol, side, cap)
    ensures Max(Toward(side, Net(d, symbol)), 0) + EntryOutstanding(d, symbol, side) <= cap
  {
    EntriesAreOutstanding(d.orders, symbol, side);
  }

  /** Over every interleaving there is never more than one untriggered Chase order per symbol and side. */
  lemma OneWorkingStop(d: Desk, steps: seq<Step>, i: nat, j: nat)
    requires WellKept(d) && PossibleRun(d, steps)
    requires i < |Run(d, steps).orders| && j < |Run(d, steps).orders| && i != j
    requires Run(d, steps).orders[i].symbol == Run(d, steps).orders[j].symbol
    requires Run(d, steps).orders[i].side == Run(d, steps).orders[j].side
    ensures var o, p := Run(d, steps).orders[i], Run(d, steps).orders[j];
      !(ChaseStop(o.symbol, o.side)(o) && ChaseStop(p.symbol, p.side)(p))
  {
    RunKeepsWell(d, steps);
    assert OneOf(Run(d, steps).orders, if i < j then i else j, if i < j then j else i);
  }

  // ---- the trail ----

  /** In the direction of a LONG (or SHORT) episode, a is at least as tight as b. */
  predicate AsTight(status: Status, a: real, b: real) { if status == LONG then a >= b else a <= b }

  /** The stored stop and every untriggered Chase exit order of the book are at least as tight as `level`. */
  ghost predicate Tight(d: Desk, level: real) {
    && d.row.stop.Some? && AsTight(d.row.status, d.row.stop.value, level)
    && forall i :: 0 <= i < |d.orders| && ChaseStop(d.row.symbol, ExitSide(d.row.status))(d.orders[i]) ==>
         AsTight(d.row.status, d.orders[i].trigger, level)
  }

  lemma HourlyKeepsTight(d: Desk, w: World, level: real)
    requires InPosition(d.row.status) && Tight(d, level)
    requires Tick(d, w).row.status == d.row.status && Tick(d, w).row.symbol == d.row.symbol
    ensures Tight(Tick(d, w), level)
  {
    HourlyTrailsStop(d, w);
    var m := TickMove(d, w);
    MoveKeepsTriggers(d, w, m, StopOr0(Tick(d, w).row), level);
  }

  /** An hour that stays in the episode never loosens the stored stop. */
  lemma HourlyTrailsStop(d: Desk, w: World)
    requires InPosition(d.row.status) && d.row.stop.Some? && Tick(d, w).row.status == d.row.status
    ensures Tick(d, w).row.stop.Some? && AsTight(d.row.status, Tick(d, w).row.stop.value, d.row.stop.value)
  {
    if |w.bars| > 0 {
      ChaseSignal.TrailWritesStop(d, w);
      ChaseSignal.AwaitLeavesStop(Write(d, BackToWaiting(d.row, w.today)), w);
    }
  }

  lemma MoveKeepsTriggers(d: Desk, w: World, m: Move, stop: real, level: real)
    requires InPosition(d.row.status) && Tight(d, level) && Justified(d, w, StopCallOf(d, w), m, stop) && AsTight(d.row.status, stop, level)
    requires !m.change.Enter?
    ensures forall i :: 0 <= i < |Applied(d.orders, m)| && ChaseStop(d.row.symbol, ExitSide(d.row.status))(Applied(d.orders, m)[i]) ==>
              AsTight(d.row.status, Applied(d.orders, m)[i].trigger, level)
  {
    var left := ChaseOrders.Dropped(d.orders, m.drop);
    assert forall i :: 0 <= i < |left| && left[i].status == TRIGGER_PENDING ==> left[i] == d.orders[i];
  }

  lemma StepKeepsTight(d: Desk, step: Step, level: real)
    requires InPosition(d.row.status) && Possible(d, step) && Tight(d, level)
    requires Next(d, step).row.status == d.row.status && Next(d, step).row.symbol == d.row.symbol
    ensures Tight(Next(d, step), level)
  {
    match step
    case Hourly(w) => HourlyKeepsTight(d, w, level);
    case Fire(_) =>
    case Fill(_, _) =>
    case Lapse(_) =>
    case Cover(_) =>
  }

  /** The run stays in one LONG or SHORT episode on one contract. */
  ghost predicate OneEpisode(d: Desk, steps: seq<Step>) {
    |steps| > 0 ==>
      && OneEpisode(d, steps[..|steps| - 1])
      && Run(d, steps).row.status == d.row.status && Run(d, steps).row.symbol == d.row.symbol
  }

  /**
   * Within one episode neither the stored stop nor the working stop's trigger ever
   * loosens: whatever level both had reached at the start, every later stop keeps it,
   * through resizing, replacing and leaving a stop that is already at its level.
   */
  lemma {:induction false} StopsOnlyTighten(d: Desk, steps: seq<Step>, level: real)
    requires InPosition(d.row.status) && Tight(d, level)
    requires PossibleRun(d, steps) && OneEpisode(d, steps)
    ensures Tight(Run(d, steps), level)
  {
    if |steps| > 0 {
      StopsOnlyTighten(d, steps[..|steps| - 1], level);
      StepKeepsTight(Run(d, steps[..|steps| - 1]), steps[|steps| - 1], level);
    }
  }

  // ---- why exits need room ----

  /** A 13:15 run on a later day, with a broker that takes everything. */
  function TrailDay(symbol: string, day: int, ema: real, ltp: real): World {
    World("NIFTY", [Bar(symbol, None, ema, 110.0, 90.0, 95.0, 75)], 13, day, map[], map[symbol := ltp], {},
          true, true, true, true, true, true, true)
  }

  /** LONG 75 since day 0, and no orders. */
  function JustLong(symbol: string): Desk { Desk(Row(LONG, symbol, Some(89.0), Some(100.0), false, 0), [], map[symbol := 75], [], []) }

  /** Without an untriggered exit, a trail sends one for the whole position. */
  lemma DayAddsExit(d: Desk, symbol: string, day: int, ema: real, ltp: real)
    requires symbol != "" && d.row.status == LONG && d.row.symbol == symbol && d.row.createdOn < day && d.writes == []
    requires d.row.stop.Some? && d.row.stop.value <= ema && Net(d, symbol) == 75 && NoChaseStop(d.orders, symbol, SELL)
    ensures var t := Tick(d, TrailDay(symbol, day, ema, ltp));
      && t.orders == d.orders + [ExitOrder(symbol, SELL, 75, ema, ltp)] && t.net == d.net && t.writes == []
      && t.row == d.row.(stop := Some(ema))
    ensures StopCallOf(d, TrailDay(symbol, day, ema, ltp)) == Some(StopCall(symbol, SELL, 75))
    ensures Resizes(d, TrailDay(symbol, day, ema, ltp), StopCall(symbol, SELL, 75))
  {
    assert BarOf(TrailDay(symbol, day, ema, ltp), symbol).symbol == symbol;
    assert FirstWhere(d.orders, ChaseStop(symbol, SELL)) == |d.orders|;
  }

  /**
   * Day 1 sends the stop at 90, which triggers below its limit and does not fill. Days 2 and 3 find no untriggered
   * exit and a price below the stop: each sends a limit order at its own price. Then all three fill.
   */
  function ThreeDays(symbol: string): seq<Step> {
    [Hourly(TrailDay(symbol, 1, 90.0, 95.0)), Fire(0), Hourly(TrailDay(symbol, 2, 91.0, 80.0)), Hourly(TrailDay(symbol, 3, 92.0, 78.0)),
     Fill(0, 75), Fill(1, 75), Fill(2, 75)]
  }

  function Triggered(symbol: string): Order { Order(symbol, SELL, OPEN, SL, STOP, 75, 0, 90.0, 85.0, true, None) }

  function AtPrice(symbol: string, ltp: real): Order { Order(symbol, SELL, OPEN, LIMIT, FLATTEN, 75, 0, 0.0, ltp, true, None) }

  /** The state before the third hour. */
  function TwoExitsOut(symbol: string): Desk {
    Next(Next(Next(JustLong(symbol), ThreeDays(symbol)[0]), Fire(0)), ThreeDays(symbol)[2])
  }

  lemma TwoDays(symbol: string)
    requires symbol != ""
    ensures var d := TwoExitsOut(symbol);
      && d.orders == [Triggered(symbol), AtPrice(symbol, 80.0)] && d.net == map[symbol := 75] && d.writes == []
      && d.row == JustLong(symbol).row.(stop := Some(91.0))
    ensures Possible(Next(JustLong(symbol), ThreeDays(symbol)[0]), Fire(0))
  {
    var d := JustLong(symbol);
    DayAddsExit(d, symbol, 1, 90.0, 95.0);
    var fired := Next(Tick(d, TrailDay(symbol, 1, 90.0, 95.0)), Fire(0));
    assert fired.orders == [Triggered(symbol)];
    DayAddsExit(fired, symbol, 2, 91.0, 80.0);
  }

  lemma UnseenTotal(orders: seq<Order>, symbol: string)
    requires orders == [Triggered(symbol), AtPrice(symbol, 80.0)]
    ensures Total(orders, UnseenOn(symbol, SELL)) == 150
  {
    assert orders[..1] == [Triggered(symbol)] && orders[..1][..0] == [];
    assert Total(orders[..1], UnseenOn(symbol, SELL)) == 75;
  }

  lemma ThirdDay(symbol: string)
    requires symbol != ""
    ensures var d, w := TwoExitsOut(symbol), TrailDay(symbol, 3, 92.0, 78.0);
      && Tick(d, w).orders == [Triggered(symbol), AtPrice(symbol, 80.0), AtPrice(symbol, 78.0)] && Net(Tick(d, w), symbol) == 75
      && !RoomForExit(d, w, _ => 75)
  {
    TwoDays(symbol);
    DayAddsExit(TwoExitsOut(symbol), symbol, 3, 92.0, 78.0);
    UnseenTotal(TwoExitsOut(symbol).orders, symbol);
  }

  /** Three open exits of 75. */
  predicate ThreeOpen(d: Desk, symbol: string) {
    && |d.orders| == 3 && Net(d, symbol) == 75
    && forall i :: 0 <= i < 3 ==> d.orders[i].symbol == symbol && d.orders[i].side == SELL && d.orders[i].status == OPEN
                                  && d.orders[i].quantity == 75 && d.orders[i].filled == 0
  }

  lemma ThreeFills(d: Desk, symbol: string)
    requires ThreeOpen(d, symbol)
    ensures Possible(d, Fill(0, 75)) && Possible(Next(d, Fill(0, 75)), Fill(1, 75))
    ensures Possible(Next(Next(d, Fill(0, 75)), Fill(1, 75)), Fill(2, 75))
    ensures Net(Next(Next(Next(d, Fill(0, 75)), Fill(1, 75)), Fill(2, 75)), symbol) == -150
  {
  }

  lemma JustLongIsBounded(symbol: string)
    requires symbol != ""
    ensures WellKept(JustLong(symbol)) && UnfiredUnfilled(JustLong(symbol).orders) && Bounded(JustLong(symbol), _ => 75)
  {
    forall s: string, side | s != "" ensures Fits(JustLong(symbol), s, side, 75) {
      assert Outstanding(JustLong(symbol), s, side) == 0 && EntryOutstanding(JustLong(symbol), s, side) == 0;
    }
  }

  lemma StepAt(d: Desk, steps: seq<Step>, i: nat, before: Desk)
    requires i < |steps| && Run(d, steps[..i]) == before && PossibleRun(d, steps[..i]) && Possible(before, steps[i])
    ensures Run(d, steps[..i + 1]) == Next(before, steps[i]) && PossibleRun(d, steps[..i + 1])
  {
    assert steps[..i + 1][..i] == steps[..i];
  }

  lemma ThreeSteps(d: Desk, steps: seq<Step>, i: nat, t: Desk, a: Step, b: Step, c: Step)
    requires i + 3 <= |steps| && steps[i] == a && steps[i + 1] == b && steps[i + 2] == c
    requires Run(d, steps[..i]) == t && PossibleRun(d, steps[..i])
    requires Possible(t, a) && Possible(Next(t, a), b) && Possible(Next(Next(t, a), b), c)
    ensures Run(d, steps[..i + 3]) == Next(Next(Next(t, a), b), c) && PossibleRun(d, steps[..i + 3])
  {
    StepAt(d, steps, i, t);
    StepAt(d, steps, i + 1, Next(t, a));
    StepAt(d, steps, i + 2, Next(Next(t, a), b));
  }

  lemma BeforeThirdDay(symbol: string)
    requires symbol != ""
    ensures Run(JustLong(symbol), ThreeDays(symbol)[..3]) == TwoExitsOut(symbol) && PossibleRun(JustLong(symbol), ThreeDays(symbol)[..3])
  {
    TwoDays(symbol);
    ThreeFirst(JustLong(symbol), ThreeDays(symbol), ThreeDays(symbol)[0], Fire(0), ThreeDays(symbol)[2]);
  }

  lemma ThreeFirst(d: Desk, steps: seq<Step>, a: Step, b: Step, c: Step)
    requires |steps| >= 3 && steps[0] == a && steps[1] == b && steps[2] == c
    requires Possible(d, a) && Possible(Next(d, a), b) && Possible(Next(Next(d, a), b), c)
    ensures Run(d, steps[..3]) == Next(Next(Next(d, a), b), c) && PossibleRun(d, steps[..3])
  {
    assert steps[..0] == [];
    ThreeSteps(d, steps, 0, d, a, b, c);
  }

  lemma FillsEnd(d: Desk, steps: seq<Step>, t: Desk, symbol: string)
    requires |steps| == 7 && steps[4] == Fill(0, 75) && steps[5] == Fill(1, 75) && steps[6] == Fill(2, 75)
    requires Run(d, steps[..4]) == t && PossibleRun(d, steps[..4]) && ThreeOpen(t, symbol)
    ensures PossibleRun(d, steps) && Net(Run(d, steps), symbol) == -150
  {
    ThreeFills(t, symbol);
    ThreeSteps(d, steps, 4, t, Fill(0, 75), Fill(1, 75), Fill(2, 75));
    assert steps[..7] == steps;
  }

  lemma HourThenFills(d: Desk, steps: seq<Step>, before: Desk, w: World, symbol: string)
    requires |steps| == 7 && steps[3] == Hourly(w) && NamedBars(w)
    requires steps[4] == Fill(0, 75) && steps[5] == Fill(1, 75) && steps[6] == Fill(2, 75)
    requires Run(d, steps[..3]) == before && PossibleRun(d, steps[..3])
    requires Tick(before, w).orders == [Triggered(symbol), AtPrice(symbol, 80.0), AtPrice(symbol, 78.0)]
    requires Net(Tick(before, w), symbol) == 75
    ensures PossibleRun(d, steps) && Net(Run(d, steps), symbol) == -150
  {
    StepAt(d, steps, 3, before);
    FillsEnd(d, steps, Run(d, steps[..4]), symbol);
  }

  lemma AfterThirdDay(symbol: string)
    requires symbol != ""
    ensures PossibleRun(JustLong(symbol), ThreeDays(symbol)) && Net(Run(JustLong(symbol), ThreeDays(symbol)), symbol) == -150
  {
    BeforeThirdDay(symbol);
    ThirdDay(symbol);
    HourThenFills(JustLong(symbol), ThreeDays(symbol), TwoExitsOut(symbol), TrailDay(symbol, 3, 92.0, 78.0), symbol);
  }

  lemma ThreeDaysFit(symbol: string)
    ensures forall step :: step in ThreeDays(symbol) && step.Hourly? ==> EntriesWithin(step.w, _ => 75)
  {
  }

  /**
   * The condition on the hourly run cannot be dropped: from LONG 75 without orders and a cap of 75, three hours
   * that each send their own exit end at -150, and the third of them has no room.
   */
  lemma ThirdExitBreaksBound(symbol: string)
    requires symbol != ""
    ensures var d, steps := JustLong(symbol), ThreeDays(symbol);
      && WellKept(d) && UnfiredUnfilled(d.orders) && Bounded(d, _ => 75) && PossibleRun(d, steps)
      && (forall step :: step in steps && step.Hourly? ==> EntriesWithin(step.w, _ => 75))
      && !RoomForExit(Run(d, steps[..3]), TrailDay(symbol, 3, 92.0, 78.0), _ => 75)
      && Net(Run(d, steps), symbol) == -150 && !NoMoreThan(Run(d, steps), 75, symbol)
  {
    JustLongIsBounded(symbol);
    ThreeDaysFit(symbol);
    BeforeThirdDay(symbol);
    ThirdDay(symbol);
    AfterThirdDay(symbol);
  }
}
