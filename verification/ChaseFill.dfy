/** Chase sizing and order-book decisions (lib/chaseFill.ts), and the types the Chase modules share. */
module ChaseFill {
  import opened Options

  datatype Side = BUY | SELL

  datatype Status = AWAITING_SIGNAL | AWAITING_LONG | AWAITING_SHORT | LONG | SHORT

  /** The broker's order states the source tells apart. */
  datatype OrderStatus = TRIGGER_PENDING | OPEN | OPEN_PENDING | VALIDATION_PENDING | PUT_ORDER_REQ_RECEIVED
                       | MODIFY_PENDING | COMPLETE | CANCELLED | REJECTED

  datatype OrderType = MARKET | LIMIT | SL | SLM

  datatype Purpose = ENTRY | STOP | FLATTEN

  datatype Order = Order(symbol: string, side: Side, status: OrderStatus, kind: OrderType, purpose: Purpose,
                         quantity: nat, filled: nat, trigger: real, limit: real, chaseTag: bool, at: Option<int>)

  function Abs(n: int): (r: nat) { if n < 0 then -n else n }

  function Max(a: int, b: int): int { if a >= b then a else b }

  function Min(a: int, b: int): int { if a <= b then a else b }

  predicate SameSign(a: int, b: int) { (a > 0 && b > 0) || (a < 0 && b < 0) }

  // ---- positions ----

  function FlattenQty(netQty: int): nat { Abs(netQty) }

  predicate SideHasPosition(long: bool, netQty: int) { if long then netQty > 0 else netQty < 0 }

  predicate StatusHasPosition(status: Status, netQty: int) {
    (status == LONG && netQty > 0) || (status == SHORT && netQty < 0)
  }

  function SideFromNetQty(netQty: int): Option<Status> {
    if netQty > 0 then Some(LONG) else if netQty < 0 then Some(SHORT) else None
  }

  // ---- rolling to the next contract ----

  datatype Rollover = Rollover(closeQty: nat, openQty: nat)

  function RolloverOrderQty(netQty: int, currentLotSize: int, nextLotSize: int): Rollover {
    var closeQty := FlattenQty(netQty);
    var nextLot := if nextLotSize == 0 then currentLotSize else nextLotSize;
    if closeQty <= 0 || currentLotSize <= 0 || nextLot <= 0 || closeQty % currentLotSize != 0 then Rollover(closeQty, closeQty)
    else Rollover(closeQty, (closeQty / currentLotSize) * nextLot)
  }

  /** A roll closes the whole book and opens as many lots as it closes, or as many shares when those are no whole lots. */
  lemma RolloverKeepsLots(netQty: int, currentLotSize: int, nextLotSize: int)
    requires currentLotSize > 0 && nextLotSize > 0
    ensures var r := RolloverOrderQty(netQty, currentLotSize, nextLotSize);
      && r.closeQty == Abs(netQty)
      && (Abs(netQty) % currentLotSize == 0 ==> r.openQty * currentLotSize == r.closeQty * nextLotSize)
      && (Abs(netQty) % currentLotSize != 0 ==> r.openQty == r.closeQty)
  {
    var lots := Abs(netQty) / currentLotSize;
    if Abs(netQty) % currentLotSize == 0 && netQty != 0 {
      assert Abs(netQty) == lots * currentLotSize;
      assert (lots * nextLotSize) * currentLotSize == (lots * currentLotSize) * nextLotSize;
    }
  }

  // ---- covering a breached stop ----

  /** How much of the displayed net still has to be sent; never more than what is displayed. */
  function CoverOrderQty(kiteQty: int, ledgerQty: Option<int>, openedQty: Option<int>, episodeFilled: int): (cover: nat)
    ensures cover <= Abs(kiteQty)
  {
    var kiteAbs, filled := Abs(kiteQty), Max(0, episodeFilled);
    if kiteAbs == 0 || filled >= kiteAbs then 0
    else if openedQty.Some? && SameSign(openedQty.value, kiteQty) then
      var reflected := Max(0, Abs(openedQty.value) - kiteAbs);
      var unreflected := Max(0, filled - reflected);
      Max(0, kiteAbs - unreflected)
    else if ledgerQty.Some? && SameSign(ledgerQty.value, kiteQty) then
      var gap := Max(0, kiteAbs - Abs(ledgerQty.value));
      if gap > 0 then Max(0, kiteAbs - Min(filled, gap)) else kiteAbs
    else kiteAbs
  }

  /** An opened or ledger size of the other sign, or none, says nothing about the displayed position. */
  lemma StaleSizesAreIgnored(kiteQty: int, ledgerQty: Option<int>, openedQty: Option<int>, episodeFilled: int)
    requires kiteQty != 0
    requires openedQty.Some? ==> (kiteQty > 0 && openedQty.value <= 0) || (kiteQty < 0 && openedQty.value >= 0)
    requires ledgerQty.Some? ==> (kiteQty > 0 && ledgerQty.value <= 0) || (kiteQty < 0 && ledgerQty.value >= 0)
    ensures CoverOrderQty(kiteQty, ledgerQty, openedQty, episodeFilled) == if episodeFilled >= Abs(kiteQty) then 0 else Abs(kiteQty)
  {
  }

  datatype BreachPlan = PlaceFlatten | ConvertWorkingStop | AlreadyCovered | PhantomEmpty | SkipCover

  function PlanSlBreachFlatten(netQty: int, stopsFilledThisTick: int, hasWorkingStop: bool, filledCoverQty: int, coverQty: int): BreachPlan {
    if stopsFilledThisTick > 0 then AlreadyCovered
    else if FlattenQty(netQty) == 0 then (if filledCoverQty > 0 then AlreadyCovered else PhantomEmpty)
    else if coverQty <= 0 then AlreadyCovered
    else if hasWorkingStop then ConvertWorkingStop
    else PlaceFlatten
  }

  predicate SlBreachMayClearStatus(plan: BreachPlan, signedQty: int) {
    plan != SkipCover && FlattenQty(signedQty) == 0
  }

  // ---- reading the order book ----

  predicate Working(o: Order) { o.status !in {COMPLETE, CANCELLED, REJECTED} }

  predicate On(o: Order, symbol: string, side: Side) { o.symbol == symbol && o.side == side }

  /** Any working order of that side: the rule behind "do not place another". */
  predicate HasWorking(orders: seq<Order>, symbol: string, side: Side) {
    exists i :: 0 <= i < |orders| && On(orders[i], symbol, side) && Working(orders[i])
  }

  predicate ProtectiveStop(o: Order) { o.kind in {SL, SLM} || o.trigger > 0.0 }

  predicate FlattenFill(o: Order) { o.kind in {MARKET, LIMIT} || o.purpose == FLATTEN }

  /** A cancelled order does not count, not even for the part that filled before the cancel. */
  predicate Counted(o: Order, symbol: string, side: Side) {
    On(o, symbol, side) && o.status !in {CANCELLED, REJECTED}
  }

  predicate EpisodeCover(o: Order, symbol: string, side: Side, openedAt: Option<int>) {
    && Counted(o, symbol, side) && (ProtectiveStop(o) || FlattenFill(o))
    && !(openedAt.Some? && o.at.Some? && o.at.value < openedAt.value)
  }

  function FilledWhere(orders: seq<Order>, keep: Order -> bool): nat {
    if |orders| == 0 then 0
    else FilledWhere(orders[..|orders| - 1], keep) + (if keep(orders[|orders| - 1]) then orders[|orders| - 1].filled else 0)
  }

  method ProtectiveStopFillQty(symbol: string, side: Side, orders: seq<Order>) returns (filled: nat)
    ensures filled == FilledWhere(orders, (o: Order) => Counted(o, symbol, side) && ProtectiveStop(o))
  {
    var keep := (o: Order) => Counted(o, symbol, side) && ProtectiveStop(o);
    filled := 0;
    for i := 0 to |orders|
      invariant filled == FilledWhere(orders[..i], keep)
    {
      var o := orders[i];
      assert orders[..i + 1][..i] == orders[..i];
      if o.symbol != symbol || o.side != side { continue; }
      if o.status == CANCELLED || o.status == REJECTED { continue; }
      if !ProtectiveStop(o) { continue; }
      if o.filled > 0 { filled := filled + o.filled; }
    }
    assert orders[..|orders|] == orders;
  }

  method EpisodeCoverFillQty(symbol: string, side: Side, openedAt: Option<int>, orders: seq<Order>) returns (filled: nat)
    ensures filled == FilledWhere(orders, (o: Order) => EpisodeCover(o, symbol, side, openedAt))
  {
    var keep := (o: Order) => EpisodeCover(o, symbol, side, openedAt);
    filled := 0;
    for i := 0 to |orders|
      invariant filled == FilledWhere(orders[..i], keep)
    {
      var o := orders[i];
      assert orders[..i + 1][..i] == orders[..i];
      if o.symbol != symbol || o.side != side { continue; }
      if o.status == CANCELLED || o.status == REJECTED { continue; }
      if !ProtectiveStop(o) && !FlattenFill(o) { continue; }
      if o.filled == 0 { continue; }
      if openedAt.Some? && o.at.Some? && o.at.value < openedAt.value { continue; }
      filled := filled + o.filled;
    }
    assert orders[..|orders|] == orders;
  }

  lemma {:induction false} FilledWhereMonotone(orders: seq<Order>, a: Order -> bool, b: Order -> bool)
    requires forall o :: a(o) ==> b(o)
    ensures FilledWhere(orders, a) <= FilledWhere(orders, b)
  {
    if |orders| > 0 { FilledWhereMonotone(orders[..|orders| - 1], a, b); }
  }

  lemma {:induction false} FilledWhereAgrees(orders: seq<Order>, a: Order -> bool, b: Order -> bool)
    requires forall o :: o in orders ==> a(o) == b(o)
    ensures FilledWhere(orders, a) == FilledWhere(orders, b)
  {
    if |orders| > 0 { FilledWhereAgrees(orders[..|orders| - 1], a, b); }
  }

  lemma {:induction false} FilledWhereAppended(past: seq<Order>, orders: seq<Order>, keep: Order -> bool)
    ensures FilledWhere(past + orders, keep) == FilledWhere(past, keep) + FilledWhere(orders, keep)
  {
    if |orders| == 0 {
      assert past + orders == past;
    } else {
      assert (past + orders)[..|past + orders| - 1] == past + orders[..|orders| - 1];
      FilledWhereAppended(past, orders[..|orders| - 1], keep);
    }
  }

  lemma {:induction false} FilledWhereNone(orders: seq<Order>, keep: Order -> bool)
    requires forall o :: o in orders ==> !keep(o)
    ensures FilledWhere(orders, keep) == 0
  {
    if |orders| > 0 { FilledWhereNone(orders[..|orders| - 1], keep); }
  }

  /** What the desk counts for a book opened at that instant: fills of the side's uncancelled orders that are not older. */
  predicate SinceOpening(o: Order, symbol: string, side: Side, openedAt: int) {
    && o.symbol == symbol && o.side == side && o.status != CANCELLED && o.status != REJECTED
    && (o.at.Some? ==> o.at.value >= openedAt)
  }

  /**
   * Orders dated before the opening instant, in front of the book, change nothing: exactly the fills of the
   * uncancelled orders of that contract and side count that are undated or dated at or after it.
   */
  lemma OpeningCutsExactly(past: seq<Order>, orders: seq<Order>, symbol: string, side: Side, openedAt: int)
    requires forall o :: o in past ==> o.at.Some? && o.at.value < openedAt
    ensures FilledWhere(past + orders, (o: Order) => EpisodeCover(o, symbol, side, Some(openedAt)))
         == FilledWhere(orders, (o: Order) => SinceOpening(o, symbol, side, openedAt))
  {
    var keep := (o: Order) => EpisodeCover(o, symbol, side, Some(openedAt));
    FilledWhereAppended(past, orders, keep);
    FilledWhereNone(past, keep);
    var since := (o: Order) => SinceOpening(o, symbol, side, openedAt);
    forall o | o in orders ensures keep(o) == since(o) {
      assert o.kind.MARKET? || o.kind.LIMIT? || o.kind.SL? || o.kind.SLM?;
    }
    FilledWhereAgrees(orders, keep, since);
  }

  lemma {:induction false} FilledWhereSplits(orders: seq<Order>, whole: Order -> bool, a: Order -> bool, b: Order -> bool)
    requires forall o :: (whole(o) <==> a(o) || b(o)) && !(a(o) && b(o))
    ensures FilledWhere(orders, whole) == FilledWhere(orders, a) + FilledWhere(orders, b)
  {
    if |orders| > 0 { FilledWhereSplits(orders[..|orders| - 1], whole, a, b); }
  }

  /** Every counted cover is a protective stop or a plain market or limit order, and none is both. */
  lemma CoversAreStopsAndFlattens(orders: seq<Order>, symbol: string, side: Side)
    ensures FilledWhere(orders, (o: Order) => EpisodeCover(o, symbol, side, None))
         == FilledWhere(orders, (o: Order) => Counted(o, symbol, side) && ProtectiveStop(o))
            + FilledWhere(orders, (o: Order) => Counted(o, symbol, side) && o.kind in {MARKET, LIMIT} && o.trigger <= 0.0)
  {
    var whole := (o: Order) => EpisodeCover(o, symbol, side, None);
    var stops := (o: Order) => Counted(o, symbol, side) && ProtectiveStop(o);
    var plain := (o: Order) => Counted(o, symbol, side) && o.kind in {MARKET, LIMIT} && o.trigger <= 0.0;
    forall o ensures (whole(o) <==> stops(o) || plain(o)) && !(stops(o) && plain(o)) {
      assert o.kind.MARKET? || o.kind.LIMIT? || o.kind.SL? || o.kind.SLM?;
    }
    FilledWhereSplits(orders, whole, stops, plain);
  }

  /** A later opening instant can only drop fills of earlier round trips. */
  lemma EpisodeNarrows(orders: seq<Order>, symbol: string, side: Side, openedAt: int, later: int)
    requires openedAt <= later
    ensures FilledWhere(orders, (o: Order) => EpisodeCover(o, symbol, side, Some(later)))
         <= FilledWhere(orders, (o: Order) => EpisodeCover(o, symbol, side, Some(openedAt)))
         <= FilledWhere(orders, (o: Order) => EpisodeCover(o, symbol, side, None))
  {
    FilledWhereMonotone(orders, (o: Order) => EpisodeCover(o, symbol, side, Some(later)),
                        (o: Order) => EpisodeCover(o, symbol, side, Some(openedAt)));
    FilledWhereMonotone(orders, (o: Order) => EpisodeCover(o, symbol, side, Some(openedAt)),
                        (o: Order) => EpisodeCover(o, symbol, side, None));
  }
}
