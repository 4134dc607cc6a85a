/**
 * One open Chase episode under the minute worker's stop-hit rule: `flattenChase` in
 * lib/queue-processor/chaseQueue.ts with the sizing of lib/chaseFill.ts, run against a
 * broker that fills and cancels on its own schedule and a position feed that lags.
 */
module ChaseEpisode {
  import opened Options
  import opened ChaseFill
  import opened SavedOrders

  /**
   * `orders` are this episode's cover orders in the order they were sent, `past` the day's orders before
   * them; `size` is what it opened at and `openedAt` when; `shown` is the displayed |net|; `ledger` and `recorded`
   * say what the desk's own records offer: without a recorded opening no order is too old to count;
   * `saved` are the saved rows of covers of this contract and side, by size, those of earlier episodes included.
   */
  datatype Episode = Episode(symbol: string, long: bool, size: nat, openedAt: int, recorded: bool, past: seq<Order>,
                             orders: seq<Order>, shown: nat, ledger: Option<nat>, cleared: bool, saved: map<nat, Saved<nat>>)

  function CoverSide(long: bool): Side { if long then SELL else BUY }

  function Signed(long: bool, n: nat): int { if long then n else 0 - n }

  /** Shares an order has moved, or may still move. */
  function Reach(o: Order): nat { if Working(o) then Max(o.quantity, o.filled) else o.filled }

  function Filled(orders: seq<Order>): nat {
    if |orders| == 0 then 0 else Filled(orders[..|orders| - 1]) + orders[|orders| - 1].filled
  }

  /** The record of the open round trip gives its size and its opening instant, or neither. */
  function Opening(s: Episode): Option<int> { if s.recorded then Some(s.openedAt) else None }

  /** The counter skips an order that was cancelled or rejected, also after a part of it filled, and one dated before the opening. */
  predicate Skipped(s: Episode, o: Order) {
    || o.status in {OrderStatus.CANCELLED, OrderStatus.REJECTED}
    || (s.recorded && o.at.Some? && o.at.value < s.openedAt)
  }

  /** Fills of this episode's covers that the counter skips. */
  function Missed(s: Episode, orders: seq<Order>): nat {
    if |orders| == 0 then 0
    else Missed(s, orders[..|orders| - 1]) + (if Skipped(s, orders[|orders| - 1]) then orders[|orders| - 1].filled else 0)
  }

  function Committed(orders: seq<Order>): nat {
    if |orders| == 0 then 0 else Committed(orders[..|orders| - 1]) + Reach(orders[|orders| - 1])
  }

  function TrueNet(s: Episode): int { s.size - Filled(s.orders) }

  predicate CoverOrder(s: Episode, o: Order) {
    && On(o, s.symbol, CoverSide(s.long)) && (ProtectiveStop(o) || FlattenFill(o))
    && o.filled <= o.quantity
  }

  /** An order of before: dated so, and no working cover. */
  predicate PastOrder(s: Episode, o: Order) {
    o.at.Some? && o.at.value < s.openedAt && !(On(o, s.symbol, CoverSide(s.long)) && Working(o))
  }

  ghost predicate PastIsOver(s: Episode) { forall o :: o in s.past ==> PastOrder(s, o) }

  predicate Lagging(s: Episode, shown: int) { TrueNet(s) <= shown <= s.size }

  /** The episode is well formed and can no longer reverse: fills plus outstanding covers fit the opened size. */
  ghost predicate Safe(s: Episode) {
    && (forall i :: 0 <= i < |s.orders| ==> CoverOrder(s, s.orders[i]))
    && PastIsOver(s)
    && Committed(s.orders) <= s.size
    && Lagging(s, s.shown)
    && (s.ledger.Some? ==> Lagging(s, s.ledger.value))
    && (s.cleared ==> TrueNet(s) == 0)
  }

  // ---- the stop-hit tick ----

  /** What `getOrders` returned: the book, or nothing when the call failed. */
  function SeenOrders(s: Episode, readable: bool): seq<Order> { if readable then s.past + s.orders else [] }

  function CountedFills(s: Episode, readable: bool): nat {
    FilledWhere(SeenOrders(s, readable), (o: Order) => EpisodeCover(o, s.symbol, CoverSide(s.long), Opening(s)))
  }

  function CoverQty(s: Episode, readable: bool): nat {
    CoverOrderQty(Signed(s.long, s.shown),
                  if s.ledger.Some? then Some(Signed(s.long, s.ledger.value)) else None,
                  if s.recorded then Some(Signed(s.long, s.size)) else None,
                  CountedFills(s, readable))
  }

  function Plan(s: Episode, readable: bool): BreachPlan {
    PlanSlBreachFlatten(Signed(s.long, s.shown), 0, HasWorking(SeenOrders(s, readable), s.symbol, CoverSide(s.long)),
                        CountedFills(s, readable), CoverQty(s, readable))
  }

  /**
   * When a cover is asked for. A stop that only the desk's own ledger shows takes the convert plan first and,
   * with nothing to convert at the broker, ends in the same send, so `Plan` reads the broker's orders alone.
   */
  predicate Asks(s: Episode, readable: bool) { Plan(s, readable) == PlaceFlatten }

  /**
   * What meets the cover: it is stopped before its saved row is looked up, or the broker's book is asked
   * where the row knows no order, and a call gets a reply.
   */
  datatype Answer = Stopped | Asked(found: Found<nat>, aged: bool, reply: Reply)

  function Find(s: Episode, quantity: nat): Option<Saved<nat>> {
    if quantity in s.saved then Some(s.saved[quantity]) else None
  }

  function PlacingOf(s: Episode, readable: bool, a: Answer): Placing<nat>
    requires a.Asked?
  {
    DecideBrokerPlace(Find(s, CoverQty(s, readable)), a.aged, a.found)
  }

  /** No saved cover of this size stands in the way. */
  predicate Opens(s: Episode, quantity: nat, a: Answer) {
    && a.Asked?
    && (|| quantity !in s.saved || Terminal(s.saved[quantity])
        || (s.saved[quantity].broker.None? && a.aged && a.found.Missing?))
  }

  predicate Arrives(a: Answer) { a.Asked? && (a.reply.Failed? ==> a.reply.arrived) }

  /** The cover reaches the broker. */
  predicate Dispatches(s: Episode, readable: bool, a: Answer) {
    Asks(s, readable) && a.Asked? && PlacingOf(s, readable, a).Place? && Arrives(a)
  }

  /** The order call ends in an exception, and with it the tick. */
  predicate Throws(s: Episode, readable: bool, a: Answer) {
    Asks(s, readable)
    && (a.Stopped? || PlacingOf(s, readable, a).Withhold? || (PlacingOf(s, readable, a).Place? && a.reply.Failed?))
  }

  function MarketCover(s: Episode, quantity: nat): Order {
    Order(s.symbol, CoverSide(s.long), OPEN, MARKET, FLATTEN, quantity, 0, 0.0, 0.0, true, None)
  }

  function FirstWorking(orders: seq<Order>): nat {
    if |orders| == 0 then 0 else if Working(orders[0]) then 0 else 1 + FirstWorking(orders[1..])
  }

  function SavedAfter(s: Episode, readable: bool, a: Answer): map<nat, Saved<nat>> {
    if a.Stopped? then s.saved
    else
      match RowAfter(Find(s, CoverQty(s, readable)), PlacingOf(s, readable, a), a.reply, |s.orders|)
      case None => s.saved
      case Some(row) => s.saved[CoverQty(s, readable) := row]
  }

  /** `convert` says whether the working stop could be turned into a market order. */
  function AfterFlatten(s: Episode, readable: bool, convert: bool, a: Answer): Episode {
    if Asks(s, readable) then
      s.(orders := if Dispatches(s, readable, a) then s.orders + [MarketCover(s, CoverQty(s, readable))] else s.orders,
         saved := SavedAfter(s, readable, a))
    else if Plan(s, readable) == ConvertWorkingStop && convert then
      var k := FirstWorking(s.orders);
      if k < |s.orders| then s.(orders := s.orders[k := s.orders[k].(kind := MARKET)]) else s
    else s
  }

  /** `later` is the second position read, on which the status decision rests. */
  function Tick(s: Episode, readable: bool, convert: bool, a: Answer, later: nat): Episode {
    var plan := if Plan(s, readable) == ConvertWorkingStop && !convert then SkipCover else Plan(s, readable);
    AfterFlatten(s, readable, convert, a).(shown := later,
      cleared := s.cleared || (!Throws(s, readable, a) && SlBreachMayClearStatus(plan, Signed(s.long, later))))
  }

  // ---- the environment ----

  datatype Step = Breach(readable: bool, convert: bool, answer: Answer, later: nat)
                | Fill(i: nat, n: nat)
                | Cancel(i: nat)
                | Feed(shown: nat)
                | Ledger(qty: Option<nat>)
                | Sync(quantity: nat, row: Saved<nat>)
                | Stamp(i: nat, at: int)

  ghost predicate Enabled(s: Episode, step: Step) {
    match step
    case Breach(readable, convert, a, later) => Lagging(AfterFlatten(s, readable, convert, a), later)
    case Fill(i, n) => i < |s.orders| && Working(s.orders[i]) && 1 <= n <= s.orders[i].quantity - s.orders[i].filled
    case Cancel(i) => i < |s.orders| && Working(s.orders[i])
    case Feed(shown) => Lagging(s, shown)
    case Ledger(q) => q.Some? ==> Lagging(s, q.value)
    case Sync(quantity, _) => quantity in s.saved
    case Stamp(i, _) => i < |s.orders|
  }

  function FilledBy(o: Order, n: nat): Order {
    o.(filled := o.filled + n, status := if o.filled + n >= o.quantity then COMPLETE else o.status)
  }

  function Next(s: Episode, step: Step): Episode {
    match step
    case Breach(readable, convert, a, later) => Tick(s, readable, convert, a, later)
    case Fill(i, n) => if i < |s.orders| then s.(orders := s.orders[i := FilledBy(s.orders[i], n)]) else s
    case Cancel(i) => if i < |s.orders| then s.(orders := s.orders[i := s.orders[i].(status := OrderStatus.CANCELLED)]) else s
    case Feed(shown) => s.(shown := shown)
    case Ledger(q) => s.(ledger := q)
    case Sync(quantity, row) => s.(saved := s.saved[quantity := row])
    case Stamp(i, at) => if i < |s.orders| then s.(orders := s.orders[i := s.orders[i].(at := Some(at))]) else s
  }

  // ---- exactly when a sent cover is right ----

  /** The desk knows the opening, and the counter skips no fill of this episode. */
  predicate SizeUsable(s: Episode) { s.recorded && Missed(s, s.orders) == 0 }

  /** Without the opened size: the ledger holds the true remainder and the counted fills explain the lag. */
  predicate LedgerUsable(s: Episode) {
    && !s.recorded && s.ledger.Some? && s.ledger.value > 0 && s.ledger.value == TrueNet(s)
    && CountedFills(s, true) >= s.shown - s.ledger.value
  }

  /** Fills of earlier round trips, which count while the opening is not recorded. */
  function Earlier(s: Episode): nat {
    if s.recorded then 0 else FilledWhere(s.past, (o: Order) => EpisodeCover(o, s.symbol, CoverSide(s.long), None))
  }

  predicate MaySend(s: Episode, readable: bool) {
    if readable then s.shown == TrueNet(s) || SizeUsable(s) || LedgerUsable(s)
    else Committed(s.orders) + s.shown <= s.size
  }

  lemma {:induction false} OwnFillsCounted(s: Episode, orders: seq<Order>)
    requires forall i :: 0 <= i < |orders| ==> CoverOrder(s, orders[i])
    ensures FilledWhere(orders, (o: Order) => EpisodeCover(o, s.symbol, CoverSide(s.long), Opening(s)))
         == Filled(orders) - Missed(s, orders)
  {
    if |orders| > 0 {
      OwnFillsCounted(s, orders[..|orders| - 1]);
      assert CoverOrder(s, orders[|orders| - 1]);
    }
  }

  /** The counter sees this episode's fills but the skipped ones, and those of earlier round trips while the opening is not recorded. */
  lemma CountedIsFilledLessMissed(s: Episode)
    requires Safe(s)
    ensures CountedFills(s, true) == Filled(s.orders) - Missed(s, s.orders) + Earlier(s)
    ensures HasWorking(SeenOrders(s, true), s.symbol, CoverSide(s.long)) <==> HasWorking(s.orders, s.symbol, CoverSide(s.long))
  {
    var keep := (o: Order) => EpisodeCover(o, s.symbol, CoverSide(s.long), Opening(s));
    FilledWhereAppended(s.past, s.orders, keep);
    OwnFillsCounted(s, s.orders);
    if s.recorded { FilledWhereNone(s.past, keep); }
    PastIsIdle(s);
  }

  lemma PastIsIdle(s: Episode)
    requires PastIsOver(s)
    ensures HasWorking(s.past + s.orders, s.symbol, CoverSide(s.long)) <==> HasWorking(s.orders, s.symbol, CoverSide(s.long))
  {
    var all := s.past + s.orders;
    assert forall i :: 0 <= i < |s.past| ==> PastOrder(s, s.past[i]);
    if HasWorking(all, s.symbol, CoverSide(s.long)) {
      var i :| 0 <= i < |all| && On(all[i], s.symbol, CoverSide(s.long)) && Working(all[i]);
      assert s.orders[i - |s.past|] == all[i];
    }
    if HasWorking(s.orders, s.symbol, CoverSide(s.long)) {
      var i :| 0 <= i < |s.orders| && On(s.orders[i], s.symbol, CoverSide(s.long)) && Working(s.orders[i]);
      assert all[|s.past| + i] == s.orders[i];
    }
  }

  lemma {:induction false} CommittedWhenIdle(orders: seq<Order>)
    requires forall i :: 0 <= i < |orders| ==> !Working(orders[i])
    ensures Committed(orders) == Filled(orders)
  {
    if |orders| > 0 { CommittedWhenIdle(orders[..|orders| - 1]); }
  }

  lemma {:induction false} FilledWithinCommitted(orders: seq<Order>)
    requires forall i :: 0 <= i < |orders| ==> orders[i].filled <= orders[i].quantity
    ensures Filled(orders) <= Committed(orders)
  {
    if |orders| > 0 { FilledWithinCommitted(orders[..|orders| - 1]); }
  }

  /**
   * A tick that asks for a cover on a readable book asks for at least the true remainder, and the
   * remainder exactly if and only if the feed, the opened size or the ledger can be used.
   */
  lemma CoverIsRemainderExactly(s: Episode)
    requires Safe(s) && Asks(s, true)
    ensures CoverQty(s, true) >= TrueNet(s)
    ensures CoverQty(s, true) == TrueNet(s) <==> MaySend(s, true)
  {
    CountedIsFilledLessMissed(s);
    FilledWithinCommitted(s.orders);
  }

  /** When the order book could not be read, the whole displayed size is asked for. */
  lemma UnreadableSendsDisplayed(s: Episode)
    requires Safe(s) && Asks(s, false)
    ensures CoverQty(s, false) == s.shown
  {
  }

  lemma AppendedOrder(orders: seq<Order>, o: Order)
    ensures Committed(orders + [o]) == Committed(orders) + Reach(o)
    ensures Filled(orders + [o]) == Filled(orders) + o.filled
  {
    assert (orders + [o])[..|orders|] == orders;
  }

  /**
   * The counter does not know what the feed already shows: with nothing working and the feed
   * current, the remainder is sent exactly while less than half of the opened size is filled, earlier
   * round trips included when the opening is not recorded, no saved cover of its size stands in the way, and
   * the broker takes it. Otherwise it stays uncovered.
   */
  lemma RemainderIsSentExactly(s: Episode, a: Answer)
    requires Safe(s) && s.shown == TrueNet(s) > 0 && Missed(s, s.orders) == 0
    requires !HasWorking(s.orders, s.symbol, CoverSide(s.long))
    ensures Dispatches(s, true, a)
       <==> && 2 * Filled(s.orders) + Earlier(s) < s.size
            && Opens(s, TrueNet(s), a) && Arrives(a)
    ensures Dispatches(s, true, a) ==> CoverQty(s, true) == TrueNet(s)
  {
    CountedIsFilledLessMissed(s);
  }

  predicate MarketCoverWorks(orders: seq<Order>) {
    exists i :: 0 <= i < |orders| && Working(orders[i]) && orders[i].kind == MARKET
  }

  /**
   * A breach tick that finds something to cover leaves a working market order exactly when one was working, or
   * a working stop could be turned into one, or with nothing working no saved cover of that size stands
   * in the way and the broker takes the new one.
   */
  lemma BreachLeavesMarketOrderExactly(s: Episode, convert: bool, a: Answer)
    requires Safe(s) && CoverQty(s, true) > 0
    ensures MarketCoverWorks(AfterFlatten(s, true, convert, a).orders)
       <==> || MarketCoverWorks(s.orders)
            || (if HasWorking(s.orders, s.symbol, CoverSide(s.long)) then convert
                else Opens(s, CoverQty(s, true), a) && Arrives(a))
  {
    PastIsIdle(s);
    if HasWorking(s.orders, s.symbol, CoverSide(s.long)) {
      WorkingStopIsConverted(s, convert, a);
    } else {
      IdleBookIsCovered(s, convert, a);
    }
  }

  lemma WorkingStopIsConverted(s: Episode, convert: bool, a: Answer)
    requires HasWorking(s.orders, s.symbol, CoverSide(s.long)) && HasWorking(SeenOrders(s, true), s.symbol, CoverSide(s.long))
    requires CoverQty(s, true) > 0
    ensures MarketCoverWorks(AfterFlatten(s, true, convert, a).orders) <==> MarketCoverWorks(s.orders) || convert
  {
    var i :| 0 <= i < |s.orders| && On(s.orders[i], s.symbol, CoverSide(s.long)) && Working(s.orders[i]);
    FirstWorkingFound(s.orders, i);
    FirstWorkingWorks(s.orders);
    if convert { ConvertedWorks(s.orders, FirstWorking(s.orders)); }
  }

  lemma IdleBookIsCovered(s: Episode, convert: bool, a: Answer)
    requires !HasWorking(SeenOrders(s, true), s.symbol, CoverSide(s.long)) && CoverQty(s, true) > 0
    ensures MarketCoverWorks(AfterFlatten(s, true, convert, a).orders)
       <==> MarketCoverWorks(s.orders) || (Opens(s, CoverQty(s, true), a) && Arrives(a))
  {
    AppendedWorks(s.orders, MarketCover(s, CoverQty(s, true)));
  }

  /** A breach tick changes no other order of the book: at most one working stop turns into a market order of the same size. */
  lemma BreachLeavesOtherOrders(s: Episode, readable: bool, convert: bool, a: Answer, i: nat)
    requires i < |s.orders|
    ensures var t := AfterFlatten(s, readable, convert, a);
      && |s.orders| <= |t.orders| <= |s.orders| + 1
      && (t.orders[i] == s.orders[i] || (Working(s.orders[i]) && t.orders[i] == s.orders[i].(kind := MARKET)))
      && (|t.orders| > |s.orders| ==> t.orders[..|s.orders|] == s.orders)
  {
    FirstWorkingWorks(s.orders);
  }

  lemma ConvertedWorks(orders: seq<Order>, k: nat)
    requires k < |orders| && Working(orders[k])
    ensures MarketCoverWorks(orders[k := orders[k].(kind := MARKET)])
  {
    assert Working(orders[k := orders[k].(kind := MARKET)][k]);
  }

  lemma AppendedWorks(orders: seq<Order>, o: Order)
    requires Working(o) && o.kind == MARKET
    ensures MarketCoverWorks(orders + [o])
  {
    assert Working((orders + [o])[|orders|]);
  }

  lemma {:induction false} FirstWorkingFound(orders: seq<Order>, i: nat)
    requires i < |orders| && Working(orders[i])
    ensures FirstWorking(orders) <= i
  {
    if i > 0 { FirstWorkingFound(orders[1..], i - 1); }
  }

  /** A cover that goes out keeps fills plus outstanding covers within the opened size exactly under that condition. */
  lemma SendingIsSafeExactly(s: Episode, readable: bool, a: Answer)
    requires Safe(s) && Dispatches(s, readable, a)
    ensures Committed(AfterFlatten(s, readable, true, a).orders) <= s.size <==> MaySend(s, readable)
  {
    AppendedOrder(s.orders, MarketCover(s, CoverQty(s, readable)));
    if readable {
      PastIsIdle(s);
      assert forall i :: 0 <= i < |s.orders| ==> CoverOrder(s, s.orders[i]);
      CommittedWhenIdle(s.orders);
      CoverIsRemainderExactly(s);
    } else {
      UnreadableSendsDisplayed(s);
    }
  }

  // ---- whole runs ----

  lemma {:induction false} ReplacedOrder(orders: seq<Order>, i: nat, o: Order)
    requires i < |orders|
    ensures Committed(orders[i := o]) == Committed(orders) - Reach(orders[i]) + Reach(o)
    ensures Filled(orders[i := o]) == Filled(orders) - orders[i].filled + o.filled
    ensures Committed(orders) >= Reach(orders[i]) && Filled(orders) >= orders[i].filled
  {
    var n := |orders| - 1;
    if i < n {
      ReplacedOrder(orders[..n], i, o);
      assert orders[i := o][..n] == orders[..n][i := o];
    } else {
      assert orders[i := o][..n] == orders[..n];
    }
  }

  lemma FirstWorkingWorks(orders: seq<Order>)
    ensures FirstWorking(orders) <= |orders|
    ensures FirstWorking(orders) < |orders| ==> Working(orders[FirstWorking(orders)])
  {
  }

  lemma CoverKeepsSafe(s: Episode, readable: bool, convert: bool, a: Answer)
    requires Safe(s) && Dispatches(s, readable, a) && MaySend(s, readable)
    ensures var t := AfterFlatten(s, readable, convert, a);
      && Committed(t.orders) <= s.size && Filled(t.orders) == Filled(s.orders)
      && forall i :: 0 <= i < |t.orders| ==> CoverOrder(s, t.orders[i])
  {
    SendingIsSafeExactly(s, readable, a);
    AppendedOrder(s.orders, MarketCover(s, CoverQty(s, readable)));
  }

  lemma ConvertKeepsSafe(s: Episode)
    requires Safe(s) && FirstWorking(s.orders) < |s.orders|
    ensures var k := FirstWorking(s.orders);
      var orders := s.orders[k := s.orders[k].(kind := MARKET)];
      && Committed(orders) <= s.size && Filled(orders) == Filled(s.orders)
      && forall i :: 0 <= i < |orders| ==> CoverOrder(s, orders[i])
  {
    FirstWorkingWorks(s.orders);
    var k := FirstWorking(s.orders);
    ReplacedOrder(s.orders, k, s.orders[k].(kind := MARKET));
  }

  lemma FlattenKeepsSafe(s: Episode, readable: bool, convert: bool, a: Answer)
    requires Safe(s) && (Dispatches(s, readable, a) ==> MaySend(s, readable))
    ensures var t := AfterFlatten(s, readable, convert, a);
      && Committed(t.orders) <= s.size && Filled(t.orders) == Filled(s.orders)
      && t == s.(orders := t.orders, saved := t.saved)
      && forall i :: 0 <= i < |t.orders| ==> CoverOrder(t, t.orders[i])
  {
    if Dispatches(s, readable, a) {
      CoverKeepsSafe(s, readable, convert, a);
    } else if !Asks(s, readable) && FirstWorking(s.orders) < |s.orders| {
      ConvertKeepsSafe(s);
    }
  }

  /** One step of any kind; a breach tick whose cover goes out must be allowed to. */
  ghost predicate Allowed(s: Episode, step: Step) {
    Enabled(s, step) && (step.Breach? && Dispatches(s, step.readable, step.answer) ==> MaySend(s, step.readable))
  }

  lemma BreachKeepsSafe(s: Episode, readable: bool, convert: bool, a: Answer, later: nat)
    requires Safe(s) && Allowed(s, Breach(readable, convert, a, later))
    ensures Safe(Tick(s, readable, convert, a, later)) && Tick(s, readable, convert, a, later).size == s.size
  {
    FlattenKeepsSafe(s, readable, convert, a);
    FilledWithinCommitted(AfterFlatten(s, readable, convert, a).orders);
    ClearedIsFlat(s, AfterFlatten(s, readable, convert, a), Tick(s, readable, convert, a, later), later);
  }

  /** A tick moves the displayed size and the status; the status is cleared on a displayed zero only. */
  lemma ClearedIsFlat(s: Episode, t: Episode, u: Episode, later: nat)
    requires Safe(s) && t == s.(orders := t.orders, saved := t.saved) && u == t.(shown := later, cleared := u.cleared)
    requires Committed(t.orders) <= s.size && Filled(s.orders) == Filled(t.orders) <= Committed(t.orders)
    requires (forall i :: 0 <= i < |t.orders| ==> CoverOrder(t, t.orders[i])) && Lagging(t, later)
    requires u.cleared ==> s.cleared || later == 0
    ensures Safe(u)
  {
    assert forall o :: o in u.past ==> PastOrder(s, o);
  }

  lemma ReplacedKeepsSafe(s: Episode, i: nat, o: Order)
    requires Safe(s) && i < |s.orders| && CoverOrder(s, o)
    requires s.orders[i].filled <= o.filled && Reach(o) <= Reach(s.orders[i])
    requires Working(s.orders[i])
    ensures Safe(s.(orders := s.orders[i := o]))
  {
    ReplacedOrder(s.orders, i, o);
    FilledWithinCommitted(s.orders);
    var t := s.(orders := s.orders[i := o]);
    FilledWithinCommitted(t.orders);
  }

  lemma StepKeepsSafe(s: Episode, step: Step)
    requires Safe(s) && Allowed(s, step)
    ensures Safe(Next(s, step)) && Next(s, step).size == s.size
  {
    hide Tick, CoverQty, Plan;
    match step
    case Breach(readable, convert, a, later) => BreachKeepsSafe(s, readable, convert, a, later);
    case Fill(i, n) => ReplacedKeepsSafe(s, i, FilledBy(s.orders[i], n));
    case Cancel(i) => ReplacedKeepsSafe(s, i, s.orders[i].(status := OrderStatus.CANCELLED));
    case Feed(_) =>
    case Ledger(_) =>
    case Sync(_, _) =>
    case Stamp(i, at) => StampedKeepsSafe(s, i, at);
  }

  lemma StampedKeepsSafe(s: Episode, i: nat, at: int)
    requires Safe(s) && i < |s.orders|
    ensures Safe(s.(orders := s.orders[i := s.orders[i].(at := Some(at))]))
  {
    ReplacedOrder(s.orders, i, s.orders[i].(at := Some(at)));
  }

  function Run(s: Episode, steps: seq<Step>): Episode {
    if |steps| == 0 then s else Next(Run(s, steps[..|steps| - 1]), steps[|steps| - 1])
  }

  ghost predicate AllowedRun(s: Episode, steps: seq<Step>) {
    |steps| > 0 ==>
      AllowedRun(s, steps[..|steps| - 1]) && Allowed(Run(s, steps[..|steps| - 1]), steps[|steps| - 1])
  }

  /**
   * Over any such run fills plus outstanding covers never exceed the opened size, so the
   * book never reverses; and LONG or SHORT is cleared only on a truly flat position.
   */
  lemma {:induction false} EpisodeNeverReverses(s: Episode, steps: seq<Step>)
    requires Safe(s) && AllowedRun(s, steps)
    ensures var t := Run(s, steps);
      && Safe(t) && 0 <= TrueNet(t) <= t.size == s.size && Committed(t.orders) <= s.size
      && (t.cleared ==> TrueNet(t) == 0)
  {
    hide Next, Allowed;
    if |steps| > 0 {
      var before := Run(s, steps[..|steps| - 1]);
      EpisodeNeverReverses(s, steps[..|steps| - 1]);
      StepKeepsSafe(before, steps[|steps| - 1]);
    }
    FilledWithinCommitted(Run(s, steps).orders);
  }

  /** The order book is always readable, only covers without fills are cancelled, and no cover is dated before the opening. */
  ghost predicate Orderly(s: Episode, step: Step) {
    && Enabled(s, step) && (step.Breach? ==> step.readable)
    && (step.Cancel? ==> s.orders[step.i].filled == 0)
    && (step.Stamp? ==> step.at >= s.openedAt)
  }

  ghost predicate OrderlyRun(s: Episode, steps: seq<Step>) {
    |steps| > 0 ==>
      OrderlyRun(s, steps[..|steps| - 1]) && Orderly(Run(s, steps[..|steps| - 1]), steps[|steps| - 1])
  }

  lemma {:induction false} ReplacedMissed(s: Episode, orders: seq<Order>, i: nat, o: Order)
    requires i < |orders| && Missed(s, orders) == 0
    requires Skipped(s, o) ==> o.filled == 0
    ensures Missed(s, orders[i := o]) == 0
  {
    var n := |orders| - 1;
    if i < n {
      ReplacedMissed(s, orders[..n], i, o);
      assert orders[i := o][..n] == orders[..n][i := o];
    } else {
      assert orders[i := o][..n] == orders[..n];
    }
  }

  /** Nothing counted before is skipped: each order was counted, or had filled nothing. */
  lemma {:induction false} CountedOrder(s: Episode, orders: seq<Order>, i: nat)
    requires i < |orders| && Missed(s, orders) == 0
    ensures Skipped(s, orders[i]) ==> orders[i].filled == 0
  {
    if i < |orders| - 1 { CountedOrder(s, orders[..|orders| - 1], i); }
  }

  lemma {:induction false} MissedDependsOnOpening(s: Episode, t: Episode, orders: seq<Order>)
    requires s.recorded == t.recorded && s.openedAt == t.openedAt
    ensures Missed(s, orders) == Missed(t, orders)
  {
    if |orders| > 0 { MissedDependsOnOpening(s, t, orders[..|orders| - 1]); }
  }

  lemma NewCoverIsCounted(s: Episode, orders: seq<Order>, o: Order)
    requires Missed(s, orders) == 0 && o.filled == 0
    ensures Missed(s, orders + [o]) == 0
  {
    assert (orders + [o])[..|orders|] == orders;
  }

  lemma ConvertedIsCounted(s: Episode, orders: seq<Order>)
    requires Missed(s, orders) == 0 && FirstWorking(orders) < |orders|
    ensures Missed(s, orders[FirstWorking(orders) := orders[FirstWorking(orders)].(kind := MARKET)]) == 0
  {
    var k := FirstWorking(orders);
    CountedOrder(s, orders, k);
    ReplacedMissed(s, orders, k, orders[k].(kind := MARKET));
  }

  lemma FlattenMissesNothing(s: Episode, readable: bool, convert: bool, a: Answer)
    requires Missed(s, s.orders) == 0
    ensures Missed(s, AfterFlatten(s, readable, convert, a).orders) == 0
  {
    hide Missed, CoverQty, Plan, PlacingOf, SavedAfter;
    NewCoverIsCounted(s, s.orders, MarketCover(s, CoverQty(s, readable)));
    if FirstWorking(s.orders) < |s.orders| { ConvertedIsCounted(s, s.orders); }
  }

  /** No working cover is dated before the opening. */
  ghost predicate DatedSince(s: Episode) {
    forall i :: 0 <= i < |s.orders| && s.recorded && s.orders[i].at.Some? ==> s.orders[i].at.value >= s.openedAt
  }

  lemma ChangedOrderMissesNothing(s: Episode, i: nat, o: Order)
    requires i < |s.orders| && Missed(s, s.orders) == 0 && DatedSince(s)
    requires Skipped(s, o) ==> o.filled == 0
    requires s.recorded && o.at.Some? ==> o.at.value >= s.openedAt
    ensures var t := s.(orders := s.orders[i := o]); Missed(t, t.orders) == 0 && DatedSince(t)
  {
    var t := s.(orders := s.orders[i := o]);
    ReplacedMissed(s, s.orders, i, o);
    MissedDependsOnOpening(s, t, t.orders);
  }

  lemma BreachMissesNothing(s: Episode, readable: bool, convert: bool, a: Answer, later: nat)
    requires Missed(s, s.orders) == 0 && DatedSince(s)
    ensures var t := Tick(s, readable, convert, a, later); Missed(t, t.orders) == 0 && DatedSince(t)
  {
    var t := Tick(s, readable, convert, a, later);
    FlattenMissesNothing(s, readable, convert, a);
    MissedDependsOnOpening(s, t, t.orders);
    FirstWorkingWorks(s.orders);
  }

  lemma OrderlyStepMissesNothing(s: Episode, step: Step)
    requires Missed(s, s.orders) == 0 && DatedSince(s) && Orderly(s, step)
    ensures var t := Next(s, step); Missed(t, t.orders) == 0 && DatedSince(t) && t.recorded == s.recorded
  {
    match step
    case Breach(readable, convert, a, later) => BreachMissesNothing(s, readable, convert, a, later);
    case Fill(i, n) =>
      CountedOrder(s, s.orders, i);
      ChangedOrderMissesNothing(s, i, FilledBy(s.orders[i], n));
    case Cancel(i) => ChangedOrderMissesNothing(s, i, s.orders[i].(status := OrderStatus.CANCELLED));
    case Stamp(i, at) =>
      CountedOrder(s, s.orders, i);
      ChangedOrderMissesNothing(s, i, s.orders[i].(at := Some(at)));
    case Feed(shown) => MissedDependsOnOpening(s, s.(shown := shown), s.orders);
    case Ledger(q) => MissedDependsOnOpening(s, s.(ledger := q), s.orders);
    case Sync(_, _) => MissedDependsOnOpening(s, Next(s, step), s.orders);
  }

  /** With the opening on record, an orderly broker suffices, however far the feed lags and whatever was traded before. */
  lemma {:induction false} OrderlyRunsAreAllowed(s: Episode, steps: seq<Step>)
    requires Safe(s) && s.recorded && Missed(s, s.orders) == 0 && DatedSince(s) && OrderlyRun(s, steps)
    ensures AllowedRun(s, steps)
    ensures var t := Run(s, steps); Missed(t, t.orders) == 0 && DatedSince(t) && t.recorded
  {
    if |steps| > 0 {
      var before := Run(s, steps[..|steps| - 1]);
      OrderlyRunsAreAllowed(s, steps[..|steps| - 1]);
      EpisodeNeverReverses(s, steps[..|steps| - 1]);
      OrderlyStepMissesNothing(before, steps[|steps| - 1]);
    }
  }

  /**
   * LONG or SHORT is cleared by a tick exactly when its second reading shows nothing, the order call raised no
   * exception, and no working stop was to be converted and could not be.
   */
  lemma ClearsExactly(s: Episode, readable: bool, convert: bool, a: Answer, later: nat)
    requires !s.cleared
    ensures Tick(s, readable, convert, a, later).cleared
       <==> && later == 0 && !Throws(s, readable, a)
            && !(CoverQty(s, readable) > 0 && HasWorking(SeenOrders(s, readable), s.symbol, CoverSide(s.long)) && !convert)
  {
  }

  // ---- a cover of the same size, again ----

  ghost predicate EnabledRun(s: Episode, steps: seq<Step>) {
    |steps| > 0 ==>
      EnabledRun(s, steps[..|steps| - 1]) && Enabled(Run(s, steps[..|steps| - 1]), steps[|steps| - 1])
  }

  /** An order is known under this size, and its row is not terminal. */
  predicate Covered(s: Episode, quantity: nat) {
    quantity in s.saved && !Terminal(s.saved[quantity]) && s.saved[quantity].broker.Some?
  }

  /** Nothing has been sent, and the one cover there can be was sent before. */
  ghost predicate Stuck(s: Episode) { Safe(s) && s.orders == [] && s.size > 0 && Covered(s, s.size) }

  lemma StuckFlatten(s: Episode, readable: bool, convert: bool, a: Answer)
    requires Stuck(s)
    ensures AfterFlatten(s, readable, convert, a) == s
  {
    assert TrueNet(s) == s.size && !HasWorking(s.orders, s.symbol, CoverSide(s.long));
    CountedIsFilledLessMissed(s);
    if Asks(s, readable) && a.Asked? {
      assert CoverQty(s, readable) == s.size;
      assert PlacingOf(s, readable, a) == Reuse(s.saved[s.size].broker.value);
      assert s.saved[s.size := s.saved[s.size]] == s.saved;
    }
  }

  lemma StuckStep(s: Episode, step: Step)
    requires Stuck(s) && Enabled(s, step) && (step.Sync? ==> step.quantity != s.size)
    ensures Stuck(Next(s, step)) && Next(s, step).size == s.size
  {
    match step
    case Breach(readable, convert, a, _) => StuckFlatten(s, readable, convert, a);
    case Fill(_, _) => assert false;
    case Cancel(_) => assert false;
    case Feed(_) =>
    case Ledger(_) =>
    case Sync(_, _) =>
    case Stamp(_, _) => assert false;
  }

  /**
   * An episode whose whole size was covered before on the contract, on any day, and whose saved row nobody
   * changes: over any run of breach ticks, whatever is read and whatever the broker would answer, no
   * cover is sent, the position stays open and its LONG or SHORT stands.
   */
  lemma {:induction false} RepeatedCoverIsNeverSent(s: Episode, steps: seq<Step>)
    requires Stuck(s) && EnabledRun(s, steps)
    requires forall step :: step in steps && step.Sync? ==> step.quantity != s.size
    ensures var t := Run(s, steps); Stuck(t) && t.orders == [] && TrueNet(t) == t.size == s.size && !t.cleared
  {
    if |steps| > 0 {
      RepeatedCoverIsNeverSent(s, steps[..|steps| - 1]);
      assert steps[|steps| - 1] in steps;
      StuckStep(Run(s, steps[..|steps| - 1]), steps[|steps| - 1]);
    }
  }

  function RoundTrip(symbol: string, saved: map<nat, Saved<nat>>): Episode {
    Episode(symbol, true, 75, 660, true, [], [], 75, None, false, saved)
  }

  /** LONG 75 with the feed current: the first round trip sends 75, a second one after that filled asks and never sends. */
  lemma SecondRoundTripIsStuck(symbol: string, steps: seq<Step>)
    requires EnabledRun(RoundTrip(symbol, map[75 := Saved(FILLED, Some(0))]), steps)
    requires forall step :: step in steps ==> !step.Sync?
    ensures var first, second := RoundTrip(symbol, map[]), RoundTrip(symbol, map[75 := Saved(FILLED, Some(0))]);
      && AfterFlatten(first, true, true, Asked(Missing, false, Taken)).orders == [MarketCover(first, 75)]
      && Asks(second, true) && CoverQty(second, true) == 75
      && Run(second, steps).orders == [] && TrueNet(Run(second, steps)) == 75
  {
    var second := RoundTrip(symbol, map[75 := Saved(FILLED, Some(0))]);
    RepeatedCoverIsNeverSent(second, steps);
  }

  /**
   * The opening instant decides: LONG 75 since minute 660, after a cover of 75 that filled at minute 600. With the
   * opening recorded the whole position is covered; without it the old fill counts and nothing is sent.
   */
  lemma OpeningInstantDecides(symbol: string)
    ensures var before := Order(symbol, SELL, COMPLETE, MARKET, FLATTEN, 75, 75, 0.0, 0.0, true, Some(600));
      var known := Episode(symbol, true, 75, 660, true, [before], [], 75, None, false, map[]);
      var unknown := known.(recorded := false);
      && Safe(known) && Asks(known, true) && CoverQty(known, true) == 75
      && Safe(unknown) && !Asks(unknown, true) && CoverQty(unknown, true) == 0
  {
    var before := Order(symbol, SELL, COMPLETE, MARKET, FLATTEN, 75, 75, 0.0, 0.0, true, Some(600));
    var known := Episode(symbol, true, 75, 660, true, [before], [], 75, None, false, map[]);
    CountedIsFilledLessMissed(known);
    CountedIsFilledLessMissed(known.(recorded := false));
    assert [before][..0] == [];
  }

  /**
   * The counter's blind spot: 100 open, a cover of 60 fills 40 and is cancelled, and the
   * feed still shows 100. The next tick asks for 100 against a true remainder of 60.
   */
  lemma CancelledPartialFillOverCovers(symbol: string)
    ensures var partial := Order(symbol, SELL, OrderStatus.CANCELLED, MARKET, FLATTEN, 60, 40, 0.0, 0.0, true, None);
      var s := Episode(symbol, true, 100, 0, true, [], [partial], 100, None, false, map[]);
      Safe(s) && Asks(s, true) && TrueNet(s) == 60 && CoverQty(s, true) == 100
  {
    var partial := Order(symbol, SELL, OrderStatus.CANCELLED, MARKET, FLATTEN, 60, 40, 0.0, 0.0, true, None);
    var s := Episode(symbol, true, 100, 0, true, [], [partial], 100, None, false, map[]);
    assert s.orders[..0] == [];
    CountedIsFilledLessMissed(s);
  }
}
