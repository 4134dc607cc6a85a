/** The two trading metrics of lib/pnl.ts: rupee P&L and strategy points. */
module Pnl {

  datatype Kind = BUY | SELL | OTHER

  /** A fill; a missing symbol, quantity or price is the empty string or zero, as the source reads it. */
  datatype Fill = Fill(symbol: string, kind: Kind, quantity: int, price: real)

  datatype SymbolPoints = SymbolPoints(symbol: string, quantity: int, points: real)

  /** Everything that is not a SELL counts as a buy here; `rupeePnl` ignores such fills instead. */
  function SignedPrice(f: Fill): real {
    if f.kind == SELL then f.price else -f.price
  }

  function SignedQty(f: Fill): int {
    if f.kind == SELL then -f.quantity else f.quantity
  }

  function RupeeValue(f: Fill): real {
    match f.kind
    case BUY => -(f.quantity as real * f.price)
    case SELL => f.quantity as real * f.price
    case OTHER => 0.0
  }

  // ---- sums over fills, the reference the loops are measured against ----

  function Total(fills: seq<Fill>, value: Fill -> real): real {
    if |fills| == 0 then 0.0 else Total(fills[..|fills| - 1], value) + value(fills[|fills| - 1])
  }

  function PointsOf(fills: seq<Fill>, symbol: string): real {
    if |fills| == 0 then 0.0
    else
      var f := fills[|fills| - 1];
      PointsOf(fills[..|fills| - 1], symbol) + (if f.symbol == symbol then SignedPrice(f) else 0.0)
  }

  function QtyOf(fills: seq<Fill>, symbol: string): int {
    if |fills| == 0 then 0
    else
      var f := fills[|fills| - 1];
      QtyOf(fills[..|fills| - 1], symbol) + (if f.symbol == symbol then SignedQty(f) else 0)
  }

  /** The symbols in order of first appearance, each once. */
  function Symbols(fills: seq<Fill>): seq<string> {
    if |fills| == 0 then []
    else
      var before, last := Symbols(fills[..|fills| - 1]), fills[|fills| - 1];
      if last.symbol in before then before else before + [last.symbol]
  }

  ghost predicate Distinct(names: seq<string>) {
    forall i, j :: 0 <= i < j < |names| ==> names[i] != names[j]
  }

  /** Each symbol that occurs is listed, once, and no other. */
  lemma {:induction false} SymbolsListed(fills: seq<Fill>)
    ensures Distinct(Symbols(fills))
    ensures forall s :: s in Symbols(fills) <==> exists f :: f in fills && f.symbol == s
  {
    if |fills| > 0 {
      var before, last := fills[..|fills| - 1], fills[|fills| - 1];
      SymbolsListed(before);
      assert forall f :: f in fills <==> f in before || f == last;
    }
  }

  function Row(fills: seq<Fill>, symbol: string): SymbolPoints {
    SymbolPoints(symbol, QtyOf(fills, symbol), PointsOf(fills, symbol))
  }

  /** One row per symbol, holding that symbol's signed totals. */
  function Aggregate(fills: seq<Fill>): (rows: seq<SymbolPoints>)
    ensures |rows| == |Symbols(fills)|
    ensures forall i :: 0 <= i < |rows| ==> rows[i] == Row(fills, Symbols(fills)[i])
  {
    var names := Symbols(fills);
    seq(|names|, i requires 0 <= i < |names| => Row(fills, names[i]))
  }

  function SumPoints(rows: seq<SymbolPoints>): real {
    if |rows| == 0 then 0.0 else SumPoints(rows[..|rows| - 1]) + rows[|rows| - 1].points
  }

  function SumQty(rows: seq<SymbolPoints>): int {
    if |rows| == 0 then 0 else SumQty(rows[..|rows| - 1]) + rows[|rows| - 1].quantity
  }

  function StrategyPoints(fills: seq<Fill>): real {
    SumPoints(Aggregate(fills))
  }

  // ---- the loops ----

  method RupeePnl(orders: seq<Fill>) returns (pnl: real)
    ensures pnl == Total(orders, RupeeValue)
  {
    var buyTotal, sellTotal := 0.0, 0.0;
    for i := 0 to |orders|
      invariant sellTotal - buyTotal == Total(orders[..i], RupeeValue)
    {
      var value := orders[i].quantity as real * orders[i].price;
      assert orders[..i + 1][..i] == orders[..i];
      if orders[i].kind == BUY {
        buyTotal := buyTotal + value;
      } else if orders[i].kind == SELL {
        sellTotal := sellTotal + value;
      }
    }
    assert orders[..|orders|] == orders;
    return sellTotal - buyTotal;
  }

  /** Symbols that never occurred total to nothing. */
  lemma {:induction false} AbsentTotals(fills: seq<Fill>, symbol: string)
    requires forall f :: f in fills ==> f.symbol != symbol
    ensures PointsOf(fills, symbol) == 0.0 && QtyOf(fills, symbol) == 0
  {
    if |fills| > 0 {
      AbsentTotals(fills[..|fills| - 1], symbol);
      assert fills[|fills| - 1] in fills;
    }
  }

  /** How one more fill moves the symbol list and every symbol's totals. */
  lemma NextFill(orders: seq<Fill>, i: nat)
    requires i < |orders|
    ensures Symbols(orders[..i + 1]) == if orders[i].symbol in Symbols(orders[..i]) then Symbols(orders[..i])
                                        else Symbols(orders[..i]) + [orders[i].symbol]
    ensures forall s :: Row(orders[..i + 1], s) == if s != orders[i].symbol then Row(orders[..i], s)
              else SymbolPoints(s, QtyOf(orders[..i], s) + SignedQty(orders[i]), PointsOf(orders[..i], s) + SignedPrice(orders[i]))
    ensures orders[i].symbol !in Symbols(orders[..i]) ==> Row(orders[..i], orders[i].symbol) == SymbolPoints(orders[i].symbol, 0, 0.0)
  {
    assert orders[..i + 1][..i] == orders[..i];
    if orders[i].symbol !in Symbols(orders[..i]) {
      SymbolsListed(orders[..i]);
      AbsentTotals(orders[..i], orders[i].symbol);
    }
  }

  /** The pending record holds exactly the rows of the fills seen so far, keyed in first-seen order. */
  ghost predicate Holds(pending: map<string, SymbolPoints>, order: seq<string>, fills: seq<Fill>) {
    && order == Symbols(fills)
    && (forall s :: s in pending <==> s in order)
    && (forall s :: s in pending ==> pending[s] == Row(fills, s))
  }

  function Plus(a: SymbolPoints, f: Fill): SymbolPoints {
    SymbolPoints(f.symbol, a.quantity + SignedQty(f), a.points + SignedPrice(f))
  }

  lemma RecordedNext(pending: map<string, SymbolPoints>, order: seq<string>, orders: seq<Fill>, i: nat)
    requires i < |orders| && Holds(pending, order, orders[..i])
    ensures var f := orders[i];
            if f.symbol in pending then Holds(pending[f.symbol := Plus(pending[f.symbol], f)], order, orders[..i + 1])
            else Holds(pending[f.symbol := Plus(SymbolPoints(f.symbol, 0, 0.0), f)], order + [f.symbol], orders[..i + 1])
  {
    NextFill(orders, i);
  }

  method AggregateFillsBySymbol(orders: seq<Fill>) returns (rows: seq<SymbolPoints>)
    ensures rows == Aggregate(orders)
  {
    var pending: map<string, SymbolPoints> := map[];
    var order: seq<string> := [];
    for i := 0 to |orders|
      invariant Holds(pending, order, orders[..i])
    {
      RecordedNext(pending, order, orders, i);
      var curr := orders[i];
      var points := if curr.kind == SELL then curr.price else -curr.price;
      var quantity := if curr.kind == SELL then -curr.quantity else curr.quantity;
      if curr.symbol !in pending {
        pending := pending[curr.symbol := SymbolPoints(curr.symbol, quantity, points)];
        order := order + [curr.symbol];
      } else {
        var sofar := pending[curr.symbol];
        pending := pending[curr.symbol := SymbolPoints(curr.symbol, sofar.quantity + quantity, sofar.points + points)];
      }
    }
    assert orders[..|orders|] == orders;
    rows := seq(|order|, k requires 0 <= k < |order| && order[k] in pending => pending[order[k]]);
  }

  // ---- conservation ----

  /** The sum over a list of symbols of their points in `fills`. */
  function PointsOver(fills: seq<Fill>, names: seq<string>): real {
    if |names| == 0 then 0.0 else PointsOver(fills, names[..|names| - 1]) + PointsOf(fills, names[|names| - 1])
  }

  function QtyOver(fills: seq<Fill>, names: seq<string>): int {
    if |names| == 0 then 0 else QtyOver(fills, names[..|names| - 1]) + QtyOf(fills, names[|names| - 1])
  }

  /** One more fill adds its price once if its symbol is listed, and not at all otherwise. */
  lemma {:induction false} OneMoreFill(fills: seq<Fill>, f: Fill, names: seq<string>)
    requires Distinct(names)
    ensures PointsOver(fills + [f], names) == PointsOver(fills, names) + (if f.symbol in names then SignedPrice(f) else 0.0)
    ensures QtyOver(fills + [f], names) == QtyOver(fills, names) + (if f.symbol in names then SignedQty(f) else 0)
  {
    if |names| > 0 {
      var rest := names[..|names| - 1];
      OneMoreFill(fills, f, rest);
      assert (fills + [f])[..|fills|] == fills;
      assert names == rest + [names[|names| - 1]];
    }
  }

  lemma {:induction false} NoFills(names: seq<string>)
    ensures PointsOver([], names) == 0.0 && QtyOver([], names) == 0
  {
    if |names| > 0 { NoFills(names[..|names| - 1]); }
  }

  lemma {:induction false} OverIsTotal(fills: seq<Fill>, names: seq<string>)
    requires Distinct(names) && forall f :: f in fills ==> f.symbol in names
    ensures PointsOver(fills, names) == Total(fills, SignedPrice)
    ensures QtyOver(fills, names) == TotalQty(fills)
  {
    if |fills| == 0 {
      NoFills(names);
    } else {
      var before, f := fills[..|fills| - 1], fills[|fills| - 1];
      OverIsTotal(before, names);
      OneMoreFill(before, f, names);
      assert before + [f] == fills;
    }
  }

  function TotalQty(fills: seq<Fill>): int {
    if |fills| == 0 then 0 else TotalQty(fills[..|fills| - 1]) + SignedQty(fills[|fills| - 1])
  }

  lemma {:induction false} RowsOver(fills: seq<Fill>, names: seq<string>, rows: seq<SymbolPoints>)
    requires |rows| == |names| && forall i :: 0 <= i < |rows| ==> rows[i] == Row(fills, names[i])
    ensures SumPoints(rows) == PointsOver(fills, names) && SumQty(rows) == QtyOver(fills, names)
  {
    if |names| > 0 {
      RowsOver(fills, names[..|names| - 1], rows[..|rows| - 1]);
    }
  }

  /** Grouping by symbol loses nothing: the rows add up to all signed prices and quantities. */
  lemma AggregationConserves(fills: seq<Fill>)
    ensures SumPoints(Aggregate(fills)) == Total(fills, SignedPrice)
    ensures SumQty(Aggregate(fills)) == TotalQty(fills)
    ensures StrategyPoints(fills) == Total(fills, SignedPrice)
  {
    SymbolsListed(fills);
    RowsOver(fills, Symbols(fills), Aggregate(fills));
    OverIsTotal(fills, Symbols(fills));
  }

  // ---- order of fills ----

  lemma {:induction false} TotalConcat(a: seq<Fill>, b: seq<Fill>, value: Fill -> real)
    ensures Total(a + b, value) == Total(a, value) + Total(b, value)
  {
    if |b| == 0 {
      assert a + b == a;
    } else {
      TotalConcat(a, b[..|b| - 1], value);
      assert (a + b)[..|a + b| - 1] == a + b[..|b| - 1];
    }
  }

  /** Taking one fill out, wherever it stands. */
  lemma Without(fills: seq<Fill>, k: nat, value: Fill -> real) returns (rest: seq<Fill>)
    requires k < |fills|
    ensures |rest| == |fills| - 1 && multiset(rest) == multiset(fills) - multiset{fills[k]}
    ensures Total(fills, value) == Total(rest, value) + value(fills[k])
  {
    rest := fills[..k] + fills[k + 1..];
    assert fills == fills[..k] + ([fills[k]] + fills[k + 1..]);
    TotalConcat(fills[..k], [fills[k]] + fills[k + 1..], value);
    TotalConcat([fills[k]], fills[k + 1..], value);
    TotalConcat(fills[..k], fills[k + 1..], value);
    assert Total([fills[k]], value) == Total([], value) + value(fills[k]);
  }

  lemma {:induction false} TotalsArePermutable(a: seq<Fill>, b: seq<Fill>, value: Fill -> real)
    requires multiset(a) == multiset(b)
    ensures Total(a, value) == Total(b, value)
    decreases |a|
  {
    if |a| == 0 {
      assert |multiset(b)| == 0;
    } else {
      var f := a[|a| - 1];
      assert f in multiset(b);
      var k :| 0 <= k < |b| && b[k] == f;
      var restA := Without(a, |a| - 1, value);
      var restB := Without(b, k, value);
      TotalsArePermutable(restA, restB, value);
    }
  }

  function PriceAt(symbol: string): Fill -> real {
    (f: Fill) => if f.symbol == symbol then SignedPrice(f) else 0.0
  }

  function QtyAt(symbol: string): Fill -> real {
    (f: Fill) => if f.symbol == symbol then SignedQty(f) as real else 0.0
  }

  lemma {:induction false} RowTotals(fills: seq<Fill>, symbol: string)
    ensures PointsOf(fills, symbol) == Total(fills, PriceAt(symbol))
    ensures QtyOf(fills, symbol) as real == Total(fills, QtyAt(symbol))
  {
    if |fills| > 0 { RowTotals(fills[..|fills| - 1], symbol); }
  }

  /** The order in which fills arrived changes no symbol's row and no total. */
  lemma AggregationIsPermutable(a: seq<Fill>, b: seq<Fill>)
    requires multiset(a) == multiset(b)
    ensures forall s :: s in Symbols(a) <==> s in Symbols(b)
    ensures forall s :: Row(a, s) == Row(b, s)
    ensures StrategyPoints(a) == StrategyPoints(b)
  {
    SymbolsListed(a);
    SymbolsListed(b);
    forall f ensures f in a <==> f in b { assert f in multiset(a) <==> f in multiset(b); }
    forall s ensures Row(a, s) == Row(b, s) {
      RowTotals(a, s);
      RowTotals(b, s);
      TotalsArePermutable(a, b, PriceAt(s));
      TotalsArePermutable(a, b, QtyAt(s));
    }
    AggregationConserves(a);
    AggregationConserves(b);
    TotalsArePermutable(a, b, SignedPrice);
  }

  // ---- rupees against points ----

  function OtherPrice(f: Fill): real {
    if f.kind == OTHER then f.price else 0.0
  }

  /** Every fill carries its price into the points, and an OTHER fill carries it twice, cancelling. */
  function PricedPoints(f: Fill): real {
    SignedPrice(f) + OtherPrice(f)
  }

  lemma RupeesOfFill(f: Fill, q: real)
    requires f.quantity as real == q
    ensures RupeeValue(f) == q * PricedPoints(f)
  {
  }

  lemma {:induction false} ScaledTotal(fills: seq<Fill>, value: Fill -> real, unit: Fill -> real, q: real)
    requires forall f :: f in fills ==> value(f) == q * unit(f)
    ensures Total(fills, value) == q * Total(fills, unit)
  {
    if |fills| > 0 {
      var f, before := fills[|fills| - 1], fills[..|fills| - 1];
      assert f in fills;
      ScaledTotal(before, value, unit, q);
      Distribute(q, Total(before, unit), unit(f));
    }
  }

  lemma {:induction false} TotalOfSum(fills: seq<Fill>, a: Fill -> real, b: Fill -> real, both: Fill -> real)
    requires forall f :: both(f) == a(f) + b(f)
    ensures Total(fills, both) == Total(fills, a) + Total(fills, b)
  {
    if |fills| > 0 { TotalOfSum(fills[..|fills| - 1], a, b, both); }
  }

  lemma Distribute(q: real, x: real, y: real)
    ensures q * (x + y) == q * x + q * y
  {
  }

  lemma {:induction false} OnlyBuysAndSells(fills: seq<Fill>)
    requires forall f :: f in fills ==> f.kind != OTHER
    ensures Total(fills, OtherPrice) == 0.0
  {
    if |fills| > 0 {
      assert fills[|fills| - 1] in fills;
      OnlyBuysAndSells(fills[..|fills| - 1]);
    }
  }

  lemma RupeesArePricedPoints(fills: seq<Fill>, q: real)
    requires forall f :: f in fills ==> f.quantity as real == q
    ensures Total(fills, RupeeValue) == q * Total(fills, PricedPoints)
  {
    forall f | f in fills ensures RupeeValue(f) == q * PricedPoints(f) {
      RupeesOfFill(f, q);
    }
    ScaledTotal(fills, RupeeValue, PricedPoints, q);
  }

  lemma RupeesSplit(fills: seq<Fill>, q: real) returns (points: real, other: real)
    requires forall f :: f in fills ==> f.quantity as real == q
    ensures points == q * StrategyPoints(fills) && other == q * Total(fills, OtherPrice)
    ensures Total(fills, RupeeValue) == points + other
  {
    RupeesArePricedPoints(fills, q);
    points, other := PricedSplit(fills, q);
  }

  lemma PricedSplit(fills: seq<Fill>, q: real) returns (points: real, other: real)
    ensures points == q * StrategyPoints(fills) && other == q * Total(fills, OtherPrice)
    ensures q * Total(fills, PricedPoints) == points + other
  {
    TotalOfSum(fills, SignedPrice, OtherPrice, PricedPoints);
    AggregationConserves(fills);
    points, other := SplitProduct(q, StrategyPoints(fills), Total(fills, OtherPrice));
  }

  lemma SplitProduct(q: real, p: real, o: real) returns (points: real, other: real)
    ensures points == q * p && other == q * o && q * (p + o) == points + other
  {
    points, other := q * p, q * o;
  }

  /**
   * Fills of one common size: a fill that is neither BUY nor SELL costs points but no
   * rupees, so rupees are size times points exactly when such fills (or the size) cancel out.
   */
  lemma RupeesAgainstPoints(fills: seq<Fill>, q: real)
    requires forall f :: f in fills ==> f.quantity as real == q
    ensures Total(fills, RupeeValue) == q * StrategyPoints(fills) <==> q * Total(fills, OtherPrice) == 0.0
  {
    var points, other := RupeesSplit(fills, q);
  }

  /** In particular for every list of BUY and SELL fills. */
  lemma RupeesAreSizeTimesPoints(fills: seq<Fill>, q: real)
    requires forall f :: f in fills ==> f.quantity as real == q && f.kind != OTHER
    ensures Total(fills, RupeeValue) == q * StrategyPoints(fills)
  {
    OnlyBuysAndSells(fills);
    var points, other := RupeesSplit(fills, q);
  }
}
