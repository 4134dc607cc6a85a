/**
 * The saved row behind every order that is placed (lib/trading/ledger.ts, lib/trading/brokerPlace.ts).
 * Rows are found by a key of tag, contract, side, size, purpose, type, prices and slice; the key holds no
 * day, job or position, so an instruction repeated later meets the row of the earlier one.
 */
module SavedOrders {
  import opened Options

  datatype RowStatus = PENDING | SUBMITTED | ACCEPTED | PARTIALLY_FILLED | FILLED | CANCEL_REQUESTED | EXPIRED | UNKNOWN
                     | CANCELLED | REJECTED | FAILED

  /** A row and the broker's order it knows. */
  datatype Saved<+T> = Saved(status: RowStatus, broker: Option<T>)

  /** What the broker's book says when the row knows no order. */
  datatype Found<+T> = Unread | Missing | Match(order: T)

  datatype Placing<+T> = Place | Reuse(order: T) | Withhold

  /** These let a fresh row be opened; the old one stays where the key finds it. */
  predicate Terminal<T>(row: Saved<T>) { row.status in {REJECTED, FAILED, CANCELLED} }

  /** `row` is what the key finds; `aged` says that it is at least a minute old. */
  function DecideBrokerPlace<T>(row: Option<Saved<T>>, aged: bool, found: Found<T>): Placing<T> {
    if row.None? || Terminal(row.value) then Place
    else if row.value.broker.Some? then Reuse(row.value.broker.value)
    else match found
      case Unread => Withhold
      case Match(order) => Reuse(order)
      case Missing => if aged then Place else Withhold
  }

  /**
   * A new order goes out exactly without a saved row, behind one that was rejected, failed or was cancelled, or
   * behind one that knows no order, is a minute old and has none in the broker's book; the order a row
   * knows, in any other state, filled and expired among them, is taken again, and so is one the book shows.
   */
  lemma NewOrderExactly<T>(row: Saved<T>, aged: bool, found: Found<T>)
    ensures DecideBrokerPlace(None, aged, found) == Place
    ensures var terminal := row.status == REJECTED || row.status == FAILED || row.status == CANCELLED;
      var d := DecideBrokerPlace(Some(row), aged, found);
      && (d == Place <==> terminal || (row.broker.None? && aged && found.Missing?))
      && (!terminal && row.broker.Some? ==> d == Reuse(row.broker.value))
      && (!terminal && row.broker.None? && found.Match? ==> d == Reuse(found.order))
  {
  }

  /** How a call to the broker ends. An order may have arrived although the call failed. */
  datatype Reply = Taken | Failed(ambiguous: bool, arrived: bool)

  /** The row after a call: a transport failure leaves it in doubt, any other error fails it. */
  function Marked<T>(reply: Reply, order: T): Saved<T> {
    match reply
    case Taken => Saved(SUBMITTED, Some(order))
    case Failed(ambiguous, _) => Saved(if ambiguous then UNKNOWN else FAILED, None)
  }

  /** What the key finds after the attempt; `order` is the one a call would create. */
  function RowAfter<T>(row: Option<Saved<T>>, placing: Placing<T>, reply: Reply, order: T): Option<Saved<T>> {
    match placing
    case Place => if row.Some? && Terminal(row.value) then row else Some(Marked(reply, order))
    case Reuse(known) => if row.Some? && row.value.broker.None? then Some(Saved(SUBMITTED, Some(known))) else row
    case Withhold => row
  }
}
