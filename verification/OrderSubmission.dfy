/**
 * `remoteOrderSuccessEnsurer` of lib/kiteUtils.ts over `placeOrder`: split by freeze quantity, submit,
 * wait, retry, and look an order up in the broker's book after an error. `placeOrder` first consults
 * the saved row of the same instruction (lib/trading/ledger.ts, lib/trading/brokerPlace.ts), which lets
 * it reuse an order it knows of, or withhold one whose acknowledgement is in doubt.
 *
 * The slices of one split run concurrently in the source. Here they run one after the
 * other, but what a lookup sees is free: it may list any further orders, among them those
 * of sibling slices, before, between and after the ones placed so far.
 */
module OrderSubmission {
  import opened Options
  import opened SavedOrders

  /** An order at the broker; `slice` says which slice sent it (negative: none of ours). Cancelled counts as rejected. */
  datatype Order = Order(slice: int, quantity: nat, rejected: bool)

  /** How a broker call fails: for good, on the network, as an order error, or otherwise. */
  datatype ErrorKind = Permanent | Network | OrderError | Unhandled(ambiguous: bool)

  datatype Wait = Answered | TimedOut

  /** The order book a lookup reads: unreadable, or a listing that depends on what was placed. */
  datatype Book = Unreadable | Listing(list: seq<Order> -> seq<Order>)

  /** What the broker does with an order that is sent. One may have arrived although the call failed. */
  datatype Call = Acked(rejected: bool) | Errored(kind: ErrorKind, arrived: Option<bool>)

  /**
   * What the world does to one attempt. `synced` says that a rejection of the known order has reached
   * the saved row by now, `aged` that the row is a minute old.
   */
  datatype Attempt =
    | Refused   // user abort or the order gate: an exception
    | Stopped   // `placeOrder` gives up before the row is saved
    | Try(synced: bool, ledgerBook: Book, aged: bool, call: Call, book: Book, wait: Wait)

  /** The saved row of one slice. */
  type Intent = Saved<Order>

  datatype Result = Done(successful: bool) | Threw

  datatype Verdict = Finish(result: Result) | Again

  /** `intents` holds each slice's first row; rows opened after a failed one are never looked up again. */
  datatype State = State(placed: seq<Order>, submissions: nat, intents: map<int, Intent>)

  const START := State([], 0, map[])

  datatype Config = Config(freezeQty: nat, retryAttempts: nat, world: (int, nat) -> Attempt)

  /** The lookup compares quantity; tag, symbol, product, side and exchange are common to all slices. */
  function FirstMatch(list: seq<Order>, quantity: nat): (k: nat)
    ensures k <= |list|
    ensures k < |list| ==> list[k].quantity == quantity
    ensures forall i :: 0 <= i < k ==> list[i].quantity != quantity
  {
    FirstFrom(list, quantity, 0)
  }

  function FirstFrom(list: seq<Order>, quantity: nat, from: nat): (k: nat)
    requires from <= |list|
    ensures from <= k <= |list|
    ensures k < |list| ==> list[k].quantity == quantity
    ensures forall i :: from <= i < k ==> list[i].quantity != quantity
    decreases |list| - from
  {
    if from == |list| || list[from].quantity == quantity then from else FirstFrom(list, quantity, from + 1)
  }

  // ---- placeOrder ----

  function Synced(row: Intent, synced: bool): Intent {
    if synced && row.broker.Some? && row.broker.value.rejected then row.(status := REJECTED) else row
  }

  /** What the key of this slice finds. */
  function RowOf(st: State, a: Attempt, slice: int): Option<Intent>
    requires a.Try?
  {
    if slice in st.intents then Some(Synced(st.intents[slice], a.synced)) else None
  }

  predicate RowIsTerminal(st: State, a: Attempt, slice: int)
    requires a.Try?
  {
    slice in st.intents && Terminal(Synced(st.intents[slice], a.synced))
  }

  function FoundIn(book: Book, placed: seq<Order>, quantity: nat): Found<Order> {
    match book
    case Unreadable => Unread
    case Listing(list) =>
      var k := FirstMatch(list(placed), quantity);
      if k < |list(placed)| then Match(list(placed)[k]) else Missing
  }

  function Decision(st: State, a: Attempt, slice: int, quantity: nat): Placing<Order>
    requires a.Try?
  {
    DecideBrokerPlace(RowOf(st, a, slice), a.aged, FoundIn(a.ledgerBook, st.placed, quantity))
  }

  predicate Sends(st: State, a: Attempt, slice: int, quantity: nat) {
    a.Try? && Decision(st, a, slice, quantity) == Place
  }

  /** The order a call leaves at the broker, if any. */
  function Arrived(call: Call, slice: int, quantity: nat): seq<Order> {
    match call
    case Acked(rejected) => [Order(slice, quantity, rejected)]
    case Errored(_, arrived) => if arrived.Some? then [Order(slice, quantity, arrived.value)] else []
  }

  function ReplyOf(call: Call): Reply {
    match call
    case Acked(_) => SavedOrders.Taken
    case Errored(kind, arrived) => Failed(kind.Network? || (kind.Unhandled? && kind.ambiguous), arrived.Some?)
  }

  /** The order an acknowledgement would name. */
  function NewOrder(call: Call, slice: int, quantity: nat): Order { Order(slice, quantity, call == Acked(true)) }

  function Attempted(st: State, a: Attempt, slice: int, quantity: nat): State {
    if !a.Try? then st
    else
      var sent := Sends(st, a, slice, quantity);
      var row := RowAfter(RowOf(st, a, slice), Decision(st, a, slice, quantity), ReplyOf(a.call), NewOrder(a.call, slice, quantity));
      State(if sent then st.placed + Arrived(a.call, slice, quantity) else st.placed,
            if sent then st.submissions + 1 else st.submissions,
            if row.Some? then st.intents[slice := row.value] else st.intents)
  }

  // ---- one attempt ----

  function Waited(rejected: bool, wait: Wait): Verdict {
    if wait.TimedOut? then Finish(Done(false)) else if rejected then Again else Finish(Done(true))
  }

  function AfterLookup(list: seq<Order>, quantity: nat, wait: Wait): Verdict {
    var k := FirstMatch(list, quantity);
    if k == |list| then Again else Waited(list[k].rejected, wait)
  }

  function AfterCall(a: Attempt, placed: seq<Order>, quantity: nat): Verdict
    requires a.Try?
  {
    match a.call
    case Acked(rejected) => Waited(rejected, a.wait)
    case Errored(kind, _) =>
      match kind
      case Permanent => Finish(Threw)
      case Unhandled(_) => Finish(Done(false))
      case _ =>
        match a.book
        case Unreadable => Finish(Done(false))
        case Listing(list) => AfterLookup(list(placed), quantity, a.wait)
  }

  function Judge(st: State, a: Attempt, slice: int, quantity: nat): Verdict {
    match a
    case Refused => Finish(Threw)
    case Stopped => Finish(Done(false))
    case Try(_, _, _, _, _, wait) =>
      match Decision(st, a, slice, quantity)
      case Withhold => Finish(Done(false))
      case Reuse(o) => Waited(o.rejected, wait)
      case Place => AfterCall(a, Attempted(st, a, slice, quantity).placed, quantity)
  }

  /** All attempts of one order that needs no split. */
  function Run(c: Config, st: State, quantity: nat, slice: int, attempt: nat): (State, Result)
    decreases c.retryAttempts - attempt
  {
    if attempt >= c.retryAttempts then (st, Threw)
    else
      var a := c.world(slice, attempt);
      var next := Attempted(st, a, slice, quantity);
      match Judge(st, a, slice, quantity)
      case Finish(r) => (next, r)
      case Again => Run(c, next, quantity, slice, attempt + 1)
  }

  lemma RunOnce(c: Config, st: State, quantity: nat, slice: int, from: nat)
    requires from < c.retryAttempts
    ensures var v, next := Judge(st, c.world(slice, from), slice, quantity), Attempted(st, c.world(slice, from), slice, quantity);
      Run(c, st, quantity, slice, from) == if v.Finish? then (next, v.result) else Run(c, next, quantity, slice, from + 1)
  {
  }

  // ---- the split ----

  function CeilDiv(a: nat, b: nat): nat
    requires b >= 1
  {
    (a + b - 1) / b
  }

  function SliceQty(quantity: nat, freezeQty: nat, idx: nat): int
    requires freezeQty >= 1
  {
    if idx == CeilDiv(quantity, freezeQty) - 1 then quantity - idx * freezeQty else freezeQty
  }

  function Slices(quantity: nat, freezeQty: nat): (qs: seq<nat>)
    requires 1 <= freezeQty < quantity
    ensures |qs| == CeilDiv(quantity, freezeQty)
    ensures forall i :: 0 <= i < |qs| ==> qs[i] == SliceQty(quantity, freezeQty, i) && 1 <= qs[i] <= freezeQty
  {
    LastSlice(quantity, freezeQty);
    seq(CeilDiv(quantity, freezeQty), i requires 0 <= i < CeilDiv(quantity, freezeQty) =>
      SliceQty(quantity, freezeQty, i) as nat)
  }

  lemma LastSlice(quantity: nat, freezeQty: nat)
    requires 1 <= freezeQty < quantity
    ensures var n := CeilDiv(quantity, freezeQty); n >= 2 && 1 <= quantity - (n - 1) * freezeQty <= freezeQty
  {
    var n := CeilDiv(quantity, freezeQty);
    var r := (quantity + freezeQty - 1) % freezeQty;
    assert quantity + freezeQty - 1 == n * freezeQty + r;
    assert (n - 1) * freezeQty == n * freezeQty - freezeQty;
    assert (n - 1) * freezeQty > 0;
    assert n - 1 > 0;
  }

  function SumOf(qs: seq<nat>): nat {
    if |qs| == 0 then 0 else SumOf(qs[..|qs| - 1]) + qs[|qs| - 1]
  }

  lemma {:induction false} SumOfEqual(qs: seq<nat>, q: nat)
    requires forall i :: 0 <= i < |qs| ==> qs[i] == q
    ensures SumOf(qs) == |qs| * q
  {
    if |qs| > 0 { SumOfEqual(qs[..|qs| - 1], q); }
  }

  /** The slices add up to the request, with no slice empty or above the freeze quantity. */
  lemma SlicesPartitionRequest(quantity: nat, freezeQty: nat)
    requires 1 <= freezeQty < quantity
    ensures var qs := Slices(quantity, freezeQty);
      && SumOf(qs) == quantity && |qs| == CeilDiv(quantity, freezeQty)
      && forall q :: q in qs ==> 1 <= q <= freezeQty
  {
    var qs := Slices(quantity, freezeQty);
    LastSlice(quantity, freezeQty);
    SumOfEqual(qs[..|qs| - 1], freezeQty);
  }

  /** The slices in turn, each from the caller's attempt number; a slice that throws is recorded as not successful. */
  function RunSlices(c: Config, st: State, qs: seq<nat>, attempt: nat): (State, bool) {
    if |qs| == 0 then (st, true)
    else
      var n := |qs| - 1;
      var (before, all) := RunSlices(c, st, qs[..n], attempt);
      var (after, r) := Run(c, before, qs[n], n, attempt);
      (after, all && r == Done(true))
  }

  /** The whole call. Slice -1 stands for the gate the unsplit request passes first. */
  function Ensure(c: Config, st: State, quantity: nat, slice: int, attempt: nat): (State, Result)
    requires c.freezeQty >= 1
  {
    if quantity <= c.freezeQty then Run(c, st, quantity, slice, attempt)
    else if attempt >= c.retryAttempts || c.world(-1, attempt).Refused? then (st, Threw)
    else
      var (after, all) := RunSlices(c, st, Slices(quantity, c.freezeQty), attempt);
      (after, Done(all))
  }

  class Submitter {
    const config: Config
    var placed: seq<Order>
    var submissions: nat
    var intents: map<int, Intent>

    constructor (config: Config)
      ensures this.config == config && Now() == START
    {
      this.config := config;
      placed, submissions, intents := [], 0, map[];
    }

    function Now(): State
      reads this
    {
      State(placed, submissions, intents)
    }

    /** One `placeOrder` call. */
    method PlaceOrder(a: Attempt, slice: int, quantity: nat) returns (decision: Placing<Order>)
      requires a.Try?
      modifies this
      ensures decision == Decision(old(Now()), a, slice, quantity)
      ensures Now() == Attempted(old(Now()), a, slice, quantity)
    {
      var created := slice !in intents;
      decision := Decision(Now(), a, slice, quantity);
      if !created {
        intents := intents[slice := Synced(intents[slice], a.synced)];
      }
      match decision {
        case Reuse(o) =>
          if intents[slice].broker.None? {
            intents := intents[slice := Saved(SUBMITTED, Some(o))];
          }
        case Withhold =>
        case Place =>
          if created || !Terminal(intents[slice]) {
            intents := intents[slice := Marked(ReplyOf(a.call), NewOrder(a.call, slice, quantity))];
          }
          submissions := submissions + 1;
          placed := placed + Arrived(a.call, slice, quantity);
      }
    }

    /** Terminates: a split call only makes unsplit ones, and those count attempts up. */
    method RemoteOrderSuccessEnsurer(quantity: nat, slice: int, attemptCount: nat) returns (r: Result)
      requires config.freezeQty >= 1
      modifies this
      ensures (Now(), r) == Ensure(config, old(Now()), quantity, slice, attemptCount)
      decreases quantity > config.freezeQty, config.retryAttempts - attemptCount
    {
      if attemptCount >= config.retryAttempts {
        return Threw;
      }
      if quantity > config.freezeQty {
        if config.world(-1, attemptCount).Refused? {
          return Threw;
        }
        var qs := Slices(quantity, config.freezeQty);
        var successful, idx := true, 0;
        while idx < |qs|
          invariant 0 <= idx <= |qs|
          invariant (Now(), successful) == RunSlices(config, old(Now()), qs[..idx], attemptCount)
        {
          assert qs[..idx + 1][..idx] == qs[..idx];
          var one := RemoteOrderSuccessEnsurer(qs[idx], idx, attemptCount);
          successful := successful && one == Done(true);
          idx := idx + 1;
        }
        assert qs[..|qs|] == qs;
        return Done(successful);
      }
      var a := config.world(slice, attemptCount);
      if a.Refused? {
        return Threw;
      }
      if a.Stopped? {
        return Done(false);
      }
      var decision := PlaceOrder(a, slice, quantity);
      var verdict := match decision
        case Withhold => Finish(Done(false))
        case Reuse(o) => Waited(o.rejected, a.wait)
        case Place => AfterCall(a, placed, quantity);
      match verdict {
        case Finish(result) =>
          return result;
        case Again =>
          r := RemoteOrderSuccessEnsurer(quantity, slice, attemptCount + 1);
      }
    }
  }

  // ---- how a call ends ----

  predicate LooksUp(a: Attempt) {
    a.Try? && a.call.Errored? && (a.call.kind.Network? || a.call.kind.OrderError?) && a.book.Listing?
  }

  /** `o` is the first order of that quantity in the list. */
  ghost predicate FirstOfSize(list: seq<Order>, quantity: nat, o: Order) {
    exists k :: 0 <= k < |list| && list[k] == o && o.quantity == quantity && forall i :: 0 <= i < k ==> list[i].quantity != quantity
  }

  /** The order this attempt waits for: an earlier one, its own acknowledged one, or after an error the first of its size in the book. */
  ghost predicate WaitsFor(st: State, a: Attempt, slice: int, quantity: nat, o: Order) {
    a.Try?
    && (|| Decision(st, a, slice, quantity) == Reuse(o)
        || (Sends(st, a, slice, quantity) && a.call.Acked? && o == Order(slice, quantity, a.call.rejected))
        || (Sends(st, a, slice, quantity) && LooksUp(a)
            && FirstOfSize(a.book.list(Attempted(st, a, slice, quantity).placed), quantity, o)))
  }

  /** An error, and a readable book without an order of that size. */
  ghost predicate Lost(st: State, a: Attempt, slice: int, quantity: nat) {
    Sends(st, a, slice, quantity) && LooksUp(a)
    && forall o :: o in a.book.list(Attempted(st, a, slice, quantity).placed) ==> o.quantity != quantity
  }

  /** Tried again: the awaited order was rejected, or the order was lost. */
  ghost predicate Retries(st: State, a: Attempt, slice: int, quantity: nat) {
    (a.Try? && a.wait.Answered? && exists o :: WaitsFor(st, a, slice, quantity, o) && o.rejected) || Lost(st, a, slice, quantity)
  }

  /** The awaited order arrived where it should. */
  ghost predicate Succeeds(st: State, a: Attempt, slice: int, quantity: nat) {
    a.Try? && a.wait.Answered? && exists o :: WaitsFor(st, a, slice, quantity, o) && !o.rejected
  }

  /** The gate refuses, or the broker refuses for good. */
  ghost predicate Throws(st: State, a: Attempt, slice: int, quantity: nat) {
    a.Refused? || (Sends(st, a, slice, quantity) && a.call.Errored? && a.call.kind.Permanent?)
  }

  /** Stopped or withheld, a wait that runs out, an unhandled error, or an error whose lookup cannot read the book. */
  ghost predicate GivesUp(st: State, a: Attempt, slice: int, quantity: nat) {
    || a.Stopped?
    || (a.Try? && Decision(st, a, slice, quantity).Withhold?)
    || (a.Try? && a.wait.TimedOut? && exists o :: WaitsFor(st, a, slice, quantity, o))
    || (Sends(st, a, slice, quantity) && a.call.Errored?
        && (a.call.kind.Unhandled? || (!a.call.kind.Permanent? && a.book.Unreadable?)))
  }

  ghost predicate EndsWith(st: State, a: Attempt, slice: int, quantity: nat, r: Result) {
    match r
    case Threw => Throws(st, a, slice, quantity)
    case Done(successful) => if successful then Succeeds(st, a, slice, quantity) else GivesUp(st, a, slice, quantity)
  }

  lemma FirstMatchIsFirst(list: seq<Order>, quantity: nat, o: Order)
    ensures FirstOfSize(list, quantity, o) <==> FirstMatch(list, quantity) < |list| && list[FirstMatch(list, quantity)] == o
    ensures FirstMatch(list, quantity) == |list| <==> forall p :: p in list ==> p.quantity != quantity
  {
    var k := FirstMatch(list, quantity);
    if FirstOfSize(list, quantity, o) {
      var j :| 0 <= j < |list| && list[j] == o && o.quantity == quantity && forall i :: 0 <= i < j ==> list[i].quantity != quantity;
      assert j == k;
    }
    if k < |list| { assert list[k] in list; }
  }

  lemma AwaitedIs(st: State, a: Attempt, slice: int, quantity: nat, o: Order, v: Verdict)
    requires a.Try? && (forall p :: WaitsFor(st, a, slice, quantity, p) <==> p == o) && v == Waited(o.rejected, a.wait)
    requires !Lost(st, a, slice, quantity) && !Throws(st, a, slice, quantity)
    requires GivesUp(st, a, slice, quantity) ==> a.wait.TimedOut?
    ensures v == Again <==> Retries(st, a, slice, quantity)
    ensures forall r :: v == Finish(r) <==> EndsWith(st, a, slice, quantity, r)
  {
    assert WaitsFor(st, a, slice, quantity, o);
  }

  lemma LookedUp(st: State, a: Attempt, slice: int, quantity: nat)
    requires Sends(st, a, slice, quantity) && LooksUp(a)
    ensures Judge(st, a, slice, quantity) == Again <==> Retries(st, a, slice, quantity)
    ensures forall r :: Judge(st, a, slice, quantity) == Finish(r) <==> EndsWith(st, a, slice, quantity, r)
  {
    var list := a.book.list(Attempted(st, a, slice, quantity).placed);
    var k := FirstMatch(list, quantity);
    forall p ensures WaitsFor(st, a, slice, quantity, p) <==> k < |list| && p == list[k] {
      FirstMatchIsFirst(list, quantity, p);
    }
    FirstMatchIsFirst(list, quantity, Order(slice, quantity, false));
    if k < |list| {
      AwaitedIs(st, a, slice, quantity, list[k], Judge(st, a, slice, quantity));
    }
  }

  /** Every attempt is tried again, succeeds, gives up or throws, for exactly these reasons. */
  lemma AttemptEndsExactly(st: State, a: Attempt, slice: int, quantity: nat)
    ensures Judge(st, a, slice, quantity) == Again <==> Retries(st, a, slice, quantity)
    ensures forall r :: Judge(st, a, slice, quantity) == Finish(r) <==> EndsWith(st, a, slice, quantity, r)
  {
    if a.Try? {
      match Decision(st, a, slice, quantity) {
        case Reuse(o) => AwaitedIs(st, a, slice, quantity, o, Judge(st, a, slice, quantity));
        case Withhold =>
        case Place =>
          if LooksUp(a) {
            LookedUp(st, a, slice, quantity);
          } else if a.call.Acked? {
            AwaitedIs(st, a, slice, quantity, Order(slice, quantity, a.call.rejected), Judge(st, a, slice, quantity));
          }
      }
    }
  }

  /** The state before attempt n, counted from `from`. */
  function StateAt(c: Config, st: State, quantity: nat, slice: int, from: nat, n: nat): State
    requires from <= n
    decreases n - from
  {
    if n == from then st else StateAt(c, Attempted(st, c.world(slice, from), slice, quantity), quantity, slice, from + 1, n)
  }

  /** All attempts before n are tried again. */
  ghost predicate Reaches(c: Config, st: State, quantity: nat, slice: int, from: nat, n: nat)
    requires from <= n
  {
    forall m :: from <= m < n ==> Retries(StateAt(c, st, quantity, slice, from, m), c.world(slice, m), slice, quantity)
  }

  /** Attempt n is the last, and ends the call with r. */
  ghost predicate LastIs(c: Config, st: State, quantity: nat, slice: int, from: nat, n: nat, r: Result) {
    && from <= n < c.retryAttempts && Reaches(c, st, quantity, slice, from, n)
    && EndsWith(StateAt(c, st, quantity, slice, from, n), c.world(slice, n), slice, quantity, r)
  }

  ghost predicate EndsSomewhere(c: Config, st: State, quantity: nat, slice: int, from: nat, r: Result) {
    exists n :: LastIs(c, st, quantity, slice, from, n, r)
  }

  lemma ReachesNext(c: Config, st: State, quantity: nat, slice: int, from: nat, n: nat)
    requires from < n
    ensures var next := Attempted(st, c.world(slice, from), slice, quantity);
      Reaches(c, st, quantity, slice, from, n)
      <==> Retries(st, c.world(slice, from), slice, quantity) && Reaches(c, next, quantity, slice, from + 1, n)
  {
    var next := Attempted(st, c.world(slice, from), slice, quantity);
    assert StateAt(c, st, quantity, slice, from, from) == st;
    assert forall m :: from < m < n ==> StateAt(c, st, quantity, slice, from, m) == StateAt(c, next, quantity, slice, from + 1, m);
  }

  lemma LastIsNext(c: Config, st: State, quantity: nat, slice: int, from: nat, n: nat, r: Result)
    requires from < n
    ensures var next := Attempted(st, c.world(slice, from), slice, quantity);
      LastIs(c, st, quantity, slice, from, n, r)
      <==> Retries(st, c.world(slice, from), slice, quantity) && LastIs(c, next, quantity, slice, from + 1, n, r)
  {
    ReachesNext(c, st, quantity, slice, from, n);
  }

  lemma LastIsHereOrLater(c: Config, st: State, quantity: nat, slice: int, from: nat, r: Result)
    requires from < c.retryAttempts
    ensures var a := c.world(slice, from);
      var next := Attempted(st, a, slice, quantity);
      EndsSomewhere(c, st, quantity, slice, from, r)
      <==> EndsWith(st, a, slice, quantity, r)
           || (Retries(st, a, slice, quantity) && EndsSomewhere(c, next, quantity, slice, from + 1, r))
  {
    var a := c.world(slice, from);
    var next := Attempted(st, a, slice, quantity);
    forall n | from < n
      ensures LastIs(c, st, quantity, slice, from, n, r)
         <==> Retries(st, a, slice, quantity) && LastIs(c, next, quantity, slice, from + 1, n, r)
    {
      LastIsNext(c, st, quantity, slice, from, n, r);
    }
    assert LastIs(c, st, quantity, slice, from, from, r) <==> EndsWith(st, a, slice, quantity, r);
    if Retries(st, a, slice, quantity) && EndsSomewhere(c, next, quantity, slice, from + 1, r) {
      var n :| LastIs(c, next, quantity, slice, from + 1, n, r);
      assert LastIs(c, st, quantity, slice, from, n, r);
    }
  }

  /** This order ends with r: its last attempt does, or every attempt was tried again and the call throws. */
  ghost predicate OrderEnds(c: Config, st: State, quantity: nat, slice: int, from: nat, r: Result)
    requires from <= c.retryAttempts
  {
    || EndsSomewhere(c, st, quantity, slice, from, r)
    || (r == Threw && Reaches(c, st, quantity, slice, from, c.retryAttempts))
  }

  lemma OrderEndsLater(c: Config, st: State, quantity: nat, slice: int, from: nat, r: Result)
    requires from < c.retryAttempts
    ensures OrderEnds(c, st, quantity, slice, from, r)
       <==> || EndsWith(st, c.world(slice, from), slice, quantity, r)
            || (Retries(st, c.world(slice, from), slice, quantity)
                && OrderEnds(c, Attempted(st, c.world(slice, from), slice, quantity), quantity, slice, from + 1, r))
  {
    LastIsHereOrLater(c, st, quantity, slice, from, r);
    ReachesNext(c, st, quantity, slice, from, c.retryAttempts);
  }

  /** One order: the result is that of the first attempt that is not tried again; when there is none, the call throws. */
  lemma {:induction false} RunEndsExactly(c: Config, st: State, quantity: nat, slice: int, from: nat, r: Result)
    requires from <= c.retryAttempts
    ensures Run(c, st, quantity, slice, from).1 == r <==> OrderEnds(c, st, quantity, slice, from, r)
    decreases c.retryAttempts - from
  {
    if from < c.retryAttempts {
      RunOnce(c, st, quantity, slice, from);
      AttemptEndsExactly(st, c.world(slice, from), slice, quantity);
      OrderEndsLater(c, st, quantity, slice, from, r);
      RunEndsExactly(c, Attempted(st, c.world(slice, from), slice, quantity), quantity, slice, from + 1, r);
    }
  }

  ghost predicate SliceDone(c: Config, st: State, qs: seq<nat>, attempt: nat, i: nat)
    requires i < |qs|
  {
    Run(c, RunSlices(c, st, qs[..i], attempt).0, qs[i], i, attempt).1 == Done(true)
  }

  ghost predicate EverySliceDone(c: Config, st: State, qs: seq<nat>, attempt: nat) {
    forall i :: 0 <= i < |qs| ==> SliceDone(c, st, qs, attempt, i)
  }

  lemma LastSliceDone(c: Config, st: State, qs: seq<nat>, attempt: nat)
    requires |qs| > 0
    ensures RunSlices(c, st, qs, attempt).1
       <==> RunSlices(c, st, qs[..|qs| - 1], attempt).1 && SliceDone(c, st, qs, attempt, |qs| - 1)
  {
  }

  lemma SliceOfPrefix(c: Config, st: State, qs: seq<nat>, attempt: nat, n: nat, i: nat)
    requires i < n <= |qs|
    ensures SliceDone(c, st, qs[..n], attempt, i) == SliceDone(c, st, qs, attempt, i)
  {
    assert qs[..n][..i] == qs[..i];
  }

  lemma {:induction false} SlicesEndExactly(c: Config, st: State, qs: seq<nat>, attempt: nat)
    ensures RunSlices(c, st, qs, attempt).1 <==> EverySliceDone(c, st, qs, attempt)
  {
    if |qs| > 0 {
      var n := |qs| - 1;
      SlicesEndExactly(c, st, qs[..n], attempt);
      LastSliceDone(c, st, qs, attempt);
      forall i | 0 <= i < n ensures SliceDone(c, st, qs[..n], attempt, i) == SliceDone(c, st, qs, attempt, i) {
        SliceOfPrefix(c, st, qs, attempt, n, i);
      }
    }
  }

  /**
   * A whole call ends with r exactly when its first attempt that is not tried again does, an unsplit one; a
   * split one succeeds exactly when every slice does and throws exactly when its own gate refuses.
   */
  lemma CallEndsExactly(c: Config, quantity: nat, r: Result)
    requires c.freezeQty >= 1
    ensures Ensure(c, START, quantity, 0, 0).1 == r
       <==> if quantity <= c.freezeQty then
              OrderEnds(c, START, quantity, 0, 0, r)
            else if c.retryAttempts == 0 || c.world(-1, 0).Refused? then r == Threw
            else r == Done(EverySliceDone(c, START, Slices(quantity, c.freezeQty), 0))
  {
    if quantity <= c.freezeQty {
      RunEndsExactly(c, START, quantity, 0, 0, r);
    } else {
      SlicesEndExactly(c, START, Slices(quantity, c.freezeQty), 0);
    }
  }

  /** A book that can be read and shows no order of that size while nothing of ours is there. */
  ghost predicate ShowsNone(book: Book, quantity: nat) {
    book.Listing? && forall o :: o in book.list([]) ==> o.quantity != quantity
  }

  /** A network or order error that leaves nothing at the broker, and a lookup that says so. */
  ghost predicate LeavesNothing(a: Attempt, quantity: nat) {
    && a.Try? && a.call.Errored? && (a.call.kind.Network? || a.call.kind.OrderError?)
    && a.call.arrived.None? && ShowsNone(a.book, quantity)
  }

  /** The saved row of a lost order does not stand in the way: it is old enough, and the broker's book does not show the order. */
  ghost predicate LetsPlace(a: Attempt, quantity: nat) { a.Try? && a.aged && ShowsNone(a.ledgerBook, quantity) }

  /** Acknowledged, accepted and answered in time. */
  ghost predicate Completes(a: Attempt) { a.Try? && a.call == Acked(false) && a.wait.Answered? }

  /** Nothing of ours at the broker, and a saved row without an order. */
  ghost predicate NothingKnown(st: State) { st.placed == [] && (0 in st.intents ==> st.intents[0].broker.None?) }

  lemma PlacesAgain(st: State, a: Attempt, quantity: nat)
    requires NothingKnown(st) && LetsPlace(a, quantity)
    ensures Sends(st, a, 0, quantity) && Attempted(st, a, 0, quantity).submissions == st.submissions + 1
  {
    FirstMatchIsFirst(a.ledgerBook.list([]), quantity, Order(0, quantity, false));
  }

  lemma LostAttempt(st: State, a: Attempt, quantity: nat)
    requires NothingKnown(st) && LetsPlace(a, quantity) && LeavesNothing(a, quantity)
    ensures Judge(st, a, 0, quantity) == Again && NothingKnown(Attempted(st, a, 0, quantity))
  {
    PlacesAgain(st, a, quantity);
    FirstMatchIsFirst(a.book.list([]), quantity, Order(0, quantity, false));
    assert Attempted(st, a, 0, quantity).placed == [];
  }

  lemma CompletedAttempt(st: State, a: Attempt, quantity: nat)
    requires NothingKnown(st) && LetsPlace(a, quantity) && Completes(a)
    ensures Judge(st, a, 0, quantity) == Finish(Done(true)) && Attempted(st, a, 0, quantity).placed == [Order(0, quantity, false)]
  {
    PlacesAgain(st, a, quantity);
  }

  lemma LostStep(c: Config, st: State, quantity: nat, from: nat) returns (next: State)
    requires from < c.retryAttempts && NothingKnown(st)
    requires LetsPlace(c.world(0, from), quantity) && LeavesNothing(c.world(0, from), quantity)
    ensures NothingKnown(next) && next.submissions == st.submissions + 1
    ensures Run(c, st, quantity, 0, from) == Run(c, next, quantity, 0, from + 1)
  {
    next := Attempted(st, c.world(0, from), 0, quantity);
    PlacesAgain(st, c.world(0, from), quantity);
    LostAttempt(st, c.world(0, from), quantity);
    RunOnce(c, st, quantity, 0, from);
  }

  lemma CompletedStep(c: Config, st: State, quantity: nat, from: nat)
    requires from < c.retryAttempts && NothingKnown(st)
    requires LetsPlace(c.world(0, from), quantity) && Completes(c.world(0, from))
    ensures TakenOnce(Run(c, st, quantity, 0, from), quantity, st.submissions + 1)
  {
    PlacesAgain(st, c.world(0, from), quantity);
    CompletedAttempt(st, c.world(0, from), quantity);
    RunOnce(c, st, quantity, 0, from);
  }

  /** From here to attempt k every order is lost, and that of attempt k completes. */
  ghost predicate LosesUntil(c: Config, quantity: nat, from: nat, k: nat) {
    && (forall n :: from <= n <= k ==> LetsPlace(c.world(0, n), quantity))
    && (forall n :: from <= n < k ==> LeavesNothing(c.world(0, n), quantity))
    && Completes(c.world(0, k))
  }

  lemma LosesFrom(c: Config, quantity: nat, from: nat, k: nat)
    requires from <= k && LosesUntil(c, quantity, from, k)
    ensures LetsPlace(c.world(0, from), quantity)
    ensures from < k ==> LeavesNothing(c.world(0, from), quantity) && LosesUntil(c, quantity, from + 1, k)
    ensures from == k ==> Completes(c.world(0, from))
  {
  }

  /** The broker has the request once, after that many submissions. */
  predicate TakenOnce(t: (State, Result), quantity: nat, submissions: nat) {
    t.1 == Done(true) && t.0.placed == [Order(0, quantity, false)] && t.0.submissions == submissions
  }

  lemma {:induction false} LostRun(c: Config, st: State, quantity: nat, from: nat, k: nat)
    requires from <= k < c.retryAttempts && NothingKnown(st) && LosesUntil(c, quantity, from, k)
    ensures TakenOnce(Run(c, st, quantity, 0, from), quantity, st.submissions + (k - from) + 1)
    decreases k - from
  {
    hide Attempted, Judge;
    LosesFrom(c, quantity, from, k);
    if from < k {
      var next := LostStep(c, st, quantity, from);
      LostRun(c, next, quantity, from + 1, k);
    } else {
      CompletedStep(c, st, quantity, from);
    }
  }

  /** Lost orders are retried: after k of them, the next accepted one completes the call with the request taken once, in k + 1 submissions. */
  lemma LostOrdersAreRetried(c: Config, quantity: nat, k: nat)
    requires 1 <= quantity <= c.freezeQty && k < c.retryAttempts
    requires LosesUntil(c, quantity, 0, k)
    ensures TakenOnce(Ensure(c, START, quantity, 0, 0), quantity, k + 1)
  {
    LostRun(c, START, quantity, 0, k);
  }

  // ---- how many submissions ----

  lemma SubmittingStep(c: Config, st: State, quantity: nat, slice: int, attempt: nat) returns (next: State, again: bool)
    requires attempt < c.retryAttempts
    ensures next.submissions <= st.submissions + 1
    ensures again ==> Run(c, st, quantity, slice, attempt) == Run(c, next, quantity, slice, attempt + 1)
    ensures !again ==> Run(c, st, quantity, slice, attempt).0 == next
  {
    next := Attempted(st, c.world(slice, attempt), slice, quantity);
    again := Judge(st, c.world(slice, attempt), slice, quantity).Again?;
    RunOnce(c, st, quantity, slice, attempt);
  }

  lemma {:induction false} RunSubmissions(c: Config, st: State, quantity: nat, slice: int, attempt: nat)
    requires attempt <= c.retryAttempts
    ensures Run(c, st, quantity, slice, attempt).0.submissions <= st.submissions + (c.retryAttempts - attempt)
    decreases c.retryAttempts - attempt
  {
    hide Attempted, Judge;
    if attempt < c.retryAttempts {
      var next, again := SubmittingStep(c, st, quantity, slice, attempt);
      if again { RunSubmissions(c, next, quantity, slice, attempt + 1); }
    }
  }

  lemma {:induction false} SlicesSubmissions(c: Config, st: State, qs: seq<nat>)
    ensures RunSlices(c, st, qs, 0).0.submissions <= st.submissions + |qs| * c.retryAttempts
  {
    if |qs| > 0 {
      var n := |qs| - 1;
      SlicesSubmissions(c, st, qs[..n]);
      RunSubmissions(c, RunSlices(c, st, qs[..n], 0).0, qs[n], n, 0);
      OneMoreTimes(n, c.retryAttempts);
    }
  }

  lemma OneMoreTimes(n: nat, k: nat)
    ensures (n + 1) * k == n * k + k
  {
  }

  /** A request costs at most its number of slices times the attempts allowed for each. */
  lemma SubmissionsAreBounded(c: Config, quantity: nat)
    requires c.freezeQty >= 1 && quantity >= 1
    ensures Ensure(c, START, quantity, 0, 0).0.submissions <= CeilDiv(quantity, c.freezeQty) * c.retryAttempts
  {
    if quantity <= c.freezeQty {
      AtLeastOne(quantity + c.freezeQty - 1, c.freezeQty);
      assert c.retryAttempts * 1 <= c.retryAttempts * CeilDiv(quantity, c.freezeQty);
      RunSubmissions(c, START, quantity, 0, 0);
    } else {
      SlicesSubmissions(c, START, Slices(quantity, c.freezeQty));
    }
  }

  lemma AtLeastOne(a: nat, b: nat)
    requires 1 <= b <= a
    ensures a / b >= 1
  {
    var product := (a / b) * b;
    assert a == product + a % b;
    assert product > 0;
  }

  // ---- never more than the request ----

  predicate Took(o: Order, slice: int) { o.slice == slice && !o.rejected }

  predicate HasTaken(placed: seq<Order>, slice: int) { exists i :: 0 <= i < |placed| && Took(placed[i], slice) }

  /** Quantity the broker took from our slices. */
  function Taken(placed: seq<Order>): nat {
    if |placed| == 0 then 0
    else
      var o := placed[|placed| - 1];
      Taken(placed[..|placed| - 1]) + (if o.slice >= 0 && !o.rejected then o.quantity else 0)
  }

  /** A book that can be read lists every order placed so far. */
  ghost predicate Lists(book: Book, placed: seq<Order>) {
    book.Listing? ==> forall o :: o in placed ==> o in book.list(placed)
  }

  ghost predicate Current(c: Config) {
    forall slice, n, placed :: c.world(slice, n).Try? ==>
      Lists(c.world(slice, n).book, placed) && Lists(c.world(slice, n).ledgerBook, placed)
  }

  /** Between attempts: a slice's orders have its size, and one that sent anything has a row. */
  ghost predicate OwnOrders(st: State, slice: int, quantity: nat) {
    && (forall o :: o in st.placed && o.slice == slice ==> o.quantity == quantity)
    && (HasTaken(st.placed, slice) ==> slice in st.intents)
  }

  lemma AttemptKeepsOwn(st: State, a: Attempt, slice: int, quantity: nat)
    requires OwnOrders(st, slice, quantity)
    ensures OwnOrders(Attempted(st, a, slice, quantity), slice, quantity)
  {
  }

  /** A slice with a taken order sends another exactly when its saved row is terminal. */
  lemma SecondOrderGoesOutExactly(c: Config, st: State, slice: int, n: nat, quantity: nat)
    requires Current(c) && OwnOrders(st, slice, quantity) && HasTaken(st.placed, slice)
    ensures var a := c.world(slice, n);
      Sends(st, a, slice, quantity) <==> a.Try? && RowIsTerminal(st, a, slice)
  {
    var a := c.world(slice, n);
    if a.Try? && a.ledgerBook.Listing? {
      assert Lists(a.ledgerBook, st.placed);
      var i :| 0 <= i < |st.placed| && Took(st.placed[i], slice);
      assert st.placed[i] in a.ledgerBook.list(st.placed);
    }
  }

  /** This attempt's order was taken behind an error, and the lookup stopped at a rejected order of that size. */
  predicate Overlooks(st: State, a: Attempt, slice: int, quantity: nat) {
    && Sends(st, a, slice, quantity) && LooksUp(a) && a.wait.Answered? && a.call.arrived == Some(false)
    && (var list := a.book.list(Attempted(st, a, slice, quantity).placed);
        var k := FirstMatch(list, quantity);
        k < |list| && list[k].rejected)
  }

  lemma TakenByAttempt(st: State, a: Attempt, slice: int, quantity: nat)
    requires !HasTaken(st.placed, slice)
    ensures HasTaken(Attempted(st, a, slice, quantity).placed, slice)
       <==> Sends(st, a, slice, quantity) && Accepts(a.call)
  {
    var placed := Attempted(st, a, slice, quantity).placed;
    if Sends(st, a, slice, quantity) && Accepts(a.call) {
      assert Took(placed[|st.placed|], slice);
    }
  }

  predicate Accepts(call: Call) { call in {Acked(false)} || (call.Errored? && call.arrived == Some(false)) }

  lemma AgainAfterTakenExactly(c: Config, st: State, slice: int, n: nat, quantity: nat)
    requires Current(c) && !HasTaken(st.placed, slice)
    ensures var a := c.world(slice, n);
      Judge(st, a, slice, quantity).Again? && HasTaken(Attempted(st, a, slice, quantity).placed, slice)
      <==> Overlooks(st, a, slice, quantity)
  {
    var a := c.world(slice, n);
    var placed := Attempted(st, a, slice, quantity).placed;
    TakenByAttempt(st, a, slice, quantity);
    if Sends(st, a, slice, quantity) && LooksUp(a) && Accepts(a.call) {
      var last := placed[|placed| - 1];
      assert Lists(a.book, placed) && last in a.book.list(placed) && last.quantity == quantity;
    }
  }

  /**
   * From a slice with nothing taken, the attempt after this one sends a second order for a taken
   * one exactly when this attempt's lookup stopped at a rejected order and the saved row is terminal:
   * its first call failed outright, or the rejection of the order it knew has reached it.
   */
  lemma RetrySendsSecondExactly(c: Config, st: State, slice: int, n: nat, quantity: nat)
    requires Current(c) && OwnOrders(st, slice, quantity) && !HasTaken(st.placed, slice)
    ensures var a, b := c.world(slice, n), c.world(slice, n + 1);
      var next := Attempted(st, a, slice, quantity);
      Judge(st, a, slice, quantity).Again? && HasTaken(next.placed, slice) && Sends(next, b, slice, quantity)
      <==> Overlooks(st, a, slice, quantity) && b.Try? && RowIsTerminal(next, b, slice)
  {
    AgainAfterTakenExactly(c, st, slice, n, quantity);
    var next := Attempted(st, c.world(slice, n), slice, quantity);
    AttemptKeepsOwn(st, c.world(slice, n), slice, quantity);
    if HasTaken(next.placed, slice) {
      SecondOrderGoesOutExactly(c, next, slice, n + 1, quantity);
    }
  }

  /** Along this run an order is accepted while the slice already has one and its row is terminal. */
  ghost predicate SecondTaken(c: Config, st: State, quantity: nat, slice: int, attempt: nat)
    decreases c.retryAttempts - attempt
  {
    && attempt < c.retryAttempts
    && var a := c.world(slice, attempt);
       || (a.Try? && HasTaken(st.placed, slice) && RowIsTerminal(st, a, slice) && Accepts(a.call))
       || (Judge(st, a, slice, quantity).Again?
           && SecondTaken(c, Attempted(st, a, slice, quantity), quantity, slice, attempt + 1))
  }

  lemma TakenOfOne(placed: seq<Order>, o: Order)
    ensures Taken(placed + [o]) == Taken(placed) + (if o.slice >= 0 && !o.rejected then o.quantity else 0)
  {
    assert (placed + [o])[..|placed|] == placed;
  }

  lemma AttemptTakes(st: State, a: Attempt, slice: int, quantity: nat)
    requires slice >= 0
    ensures Taken(Attempted(st, a, slice, quantity).placed)
         == Taken(st.placed) + (if Sends(st, a, slice, quantity) && Accepts(a.call) then quantity else 0)
  {
    if Sends(st, a, slice, quantity) && |Arrived(a.call, slice, quantity)| > 0 {
      TakenOfOne(st.placed, Arrived(a.call, slice, quantity)[0]);
      assert Arrived(a.call, slice, quantity) == [Arrived(a.call, slice, quantity)[0]];
    } else {
      assert st.placed + [] == st.placed;
    }
  }

  /** How many orders of this run the broker accepts. */
  function AcceptedSends(c: Config, st: State, quantity: nat, slice: int, attempt: nat): nat
    decreases c.retryAttempts - attempt
  {
    if attempt >= c.retryAttempts then 0
    else
      var a := c.world(slice, attempt);
      (if Sends(st, a, slice, quantity) && Accepts(a.call) then 1 else 0)
      + (if Judge(st, a, slice, quantity).Again? then AcceptedSends(c, Attempted(st, a, slice, quantity), quantity, slice, attempt + 1) else 0)
  }

  /** What `k` orders of `q` move. */
  function Orders(k: nat, q: nat): nat { if k == 0 then 0 else q + Orders(k - 1, q) }

  lemma TakingStep(c: Config, st: State, quantity: nat, slice: int, attempt: nat) returns (next: State, took: bool, again: bool)
    requires slice >= 0 && attempt < c.retryAttempts
    ensures Taken(next.placed) == Taken(st.placed) + if took then quantity else 0
    ensures again ==> Run(c, st, quantity, slice, attempt) == Run(c, next, quantity, slice, attempt + 1)
    ensures !again ==> Run(c, st, quantity, slice, attempt).0 == next
    ensures AcceptedSends(c, st, quantity, slice, attempt)
         == (if took then 1 else 0) + (if again then AcceptedSends(c, next, quantity, slice, attempt + 1) else 0)
  {
    var a := c.world(slice, attempt);
    next, took := Attempted(st, a, slice, quantity), Sends(st, a, slice, quantity) && Accepts(a.call);
    again := Judge(st, a, slice, quantity).Again?;
    AttemptTakes(st, a, slice, quantity);
    RunOnce(c, st, quantity, slice, attempt);
  }

  lemma {:induction false} RunTakesPerOrder(c: Config, st: State, quantity: nat, slice: int, attempt: nat)
    requires slice >= 0
    ensures Taken(Run(c, st, quantity, slice, attempt).0.placed)
         == Taken(st.placed) + Orders(AcceptedSends(c, st, quantity, slice, attempt), quantity)
    decreases c.retryAttempts - attempt
  {
    hide Attempted, Judge;
    if attempt < c.retryAttempts {
      var next, took, again := TakingStep(c, st, quantity, slice, attempt);
      if again { RunTakesPerOrder(c, next, quantity, slice, attempt + 1); }
    }
  }

  function Room(st: State, slice: int, quantity: nat): nat { if HasTaken(st.placed, slice) then 0 else quantity }

  lemma {:induction false} RunTakes(c: Config, st: State, quantity: nat, slice: int, attempt: nat)
    requires Current(c) && slice >= 0 && OwnOrders(st, slice, quantity)
    ensures !SecondTaken(c, st, quantity, slice, attempt) ==>
      Taken(Run(c, st, quantity, slice, attempt).0.placed) <= Taken(st.placed) + Room(st, slice, quantity)
    ensures SecondTaken(c, st, quantity, slice, attempt) ==>
      Taken(Run(c, st, quantity, slice, attempt).0.placed) >= Taken(st.placed) + Room(st, slice, quantity) + quantity
    decreases c.retryAttempts - attempt
  {
    if attempt < c.retryAttempts {
      var a := c.world(slice, attempt);
      var next := Attempted(st, a, slice, quantity);
      AttemptTakes(st, a, slice, quantity);
      AttemptKeepsOwn(st, a, slice, quantity);
      AttemptKeepsTaken(st, a, slice, quantity);
      RunTakesPerOrder(c, next, quantity, slice, attempt + 1);
      RunTakes(c, next, quantity, slice, attempt + 1);
      if HasTaken(st.placed, slice) {
        SecondOrderGoesOutExactly(c, st, slice, attempt, quantity);
      } else {
        TakenByAttempt(st, a, slice, quantity);
      }
    }
  }

  lemma AttemptKeepsTaken(st: State, a: Attempt, slice: int, quantity: nat)
    ensures forall other :: HasTaken(st.placed, other) ==> HasTaken(Attempted(st, a, slice, quantity).placed, other)
    ensures forall other :: other != slice ==>
      (HasTaken(st.placed, other) <==> HasTaken(Attempted(st, a, slice, quantity).placed, other))
  {
    var next := Attempted(st, a, slice, quantity);
    forall other | HasTaken(st.placed, other) ensures HasTaken(next.placed, other) {
      var i :| 0 <= i < |st.placed| && Took(st.placed[i], other);
      assert Took(next.placed[i], other);
    }
  }

  /** One order, from the start of its slice: the broker takes more than was asked for exactly when a second one was accepted. */
  lemma SliceTakesTwiceExactly(c: Config, st: State, quantity: nat, slice: int, attempt: nat)
    requires Current(c) && slice >= 0 && quantity >= 1
    requires forall o :: o in st.placed ==> o.slice != slice
    ensures Taken(Run(c, st, quantity, slice, attempt).0.placed) > Taken(st.placed) + quantity
       <==> SecondTaken(c, st, quantity, slice, attempt)
  {
    RunTakes(c, st, quantity, slice, attempt);
  }

  lemma {:induction false} RunKeepsSlicesBelow(c: Config, st: State, quantity: nat, slice: int, attempt: nat, bound: int)
    requires slice < bound && forall o :: o in st.placed ==> o.slice < bound
    ensures forall o :: o in Run(c, st, quantity, slice, attempt).0.placed ==> o.slice < bound
    decreases c.retryAttempts - attempt
  {
    if attempt < c.retryAttempts {
      RunKeepsSlicesBelow(c, Attempted(st, c.world(slice, attempt), slice, quantity), quantity, slice, attempt + 1, bound);
    }
  }

  ghost predicate NoSliceTakesTwice(c: Config, st: State, qs: seq<nat>) {
    |qs| > 0 ==>
      var n := |qs| - 1;
      NoSliceTakesTwice(c, st, qs[..n]) && !SecondTaken(c, RunSlices(c, st, qs[..n], 0).0, qs[n], n, 0)
  }

  lemma {:induction false} SlicesTakeAtMostTheirSum(c: Config, st: State, qs: seq<nat>)
    requires Current(c) && NoSliceTakesTwice(c, st, qs) && st.placed == []
    ensures Taken(RunSlices(c, st, qs, 0).0.placed) <= Taken(st.placed) + SumOf(qs)
    ensures forall o :: o in RunSlices(c, st, qs, 0).0.placed ==> o.slice < |qs|
  {
    if |qs| > 0 {
      var n := |qs| - 1;
      var before := RunSlices(c, st, qs[..n], 0).0;
      SlicesTakeAtMostTheirSum(c, st, qs[..n]);
      assert !HasTaken(before.placed, n);
      RunTakes(c, before, qs[n], n, 0);
      RunKeepsSlicesBelow(c, before, qs[n], n, 0, |qs|);
    }
  }

  // ---- the accounts of a split call ----

  /** A slice of which no order was accepted, and one of which more than one was. */
  function Short(k: nat, q: nat): nat { if k == 0 then q else 0 }

  function Over(k: nat, q: nat): nat { if k == 0 then 0 else Orders(k - 1, q) }

  function LastAccepted(c: Config, st: State, qs: seq<nat>): nat
    requires |qs| > 0
  {
    var n := |qs| - 1;
    AcceptedSends(c, RunSlices(c, st, qs[..n], 0).0, qs[n], n, 0)
  }

  function ShortOf(c: Config, st: State, qs: seq<nat>): nat {
    if |qs| == 0 then 0 else ShortOf(c, st, qs[..|qs| - 1]) + Short(LastAccepted(c, st, qs), qs[|qs| - 1])
  }

  function OverOf(c: Config, st: State, qs: seq<nat>): nat {
    if |qs| == 0 then 0 else OverOf(c, st, qs[..|qs| - 1]) + Over(LastAccepted(c, st, qs), qs[|qs| - 1])
  }

  lemma Accounted(before: nat, after: nat, k: nat, q: nat)
    requires after == before + Orders(k, q)
    ensures after + Short(k, q) == before + q + Over(k, q)
  {
  }

  lemma LastRun(c: Config, st: State, qs: seq<nat>)
    requires |qs| > 0
    ensures var n := |qs| - 1;
      RunSlices(c, st, qs, 0).0 == Run(c, RunSlices(c, st, qs[..n], 0).0, qs[n], n, 0).0
  {
  }

  lemma {:induction false} SlicesAccounted(c: Config, st: State, qs: seq<nat>)
    ensures Taken(RunSlices(c, st, qs, 0).0.placed) + ShortOf(c, st, qs) == Taken(st.placed) + SumOf(qs) + OverOf(c, st, qs)
  {
    if |qs| > 0 {
      var n := |qs| - 1;
      var before := RunSlices(c, st, qs[..n], 0).0;
      SlicesAccounted(c, st, qs[..n]);
      LastRun(c, st, qs);
      RunTakesPerOrder(c, before, qs[n], n, 0);
      Accounted(Taken(before.placed), Taken(RunSlices(c, st, qs, 0).0.placed), LastAccepted(c, st, qs), qs[n]);
    }
  }

  /**
   * A whole call: the broker takes more than was asked for exactly when a second order of an unsplit one was
   * accepted, or, past the gate, the slices taken more than once outweigh the slices not taken at all.
   */
  lemma CallExceedsExactly(c: Config, quantity: nat)
    requires c.freezeQty >= 1 && quantity >= 1 && Current(c)
    ensures Taken(Ensure(c, START, quantity, 0, 0).0.placed) > quantity
       <==> if quantity <= c.freezeQty then SecondTaken(c, START, quantity, 0, 0)
            else
              && c.retryAttempts > 0 && !c.world(-1, 0).Refused?
              && OverOf(c, START, Slices(quantity, c.freezeQty)) > ShortOf(c, START, Slices(quantity, c.freezeQty))
  {
    if quantity <= c.freezeQty {
      SliceTakesTwiceExactly(c, START, quantity, 0, 0);
    } else {
      SlicesAccounted(c, START, Slices(quantity, c.freezeQty));
      SlicesPartitionRequest(quantity, c.freezeQty);
    }
  }

  /** And a slice is over exactly when an order of it was accepted while it had one and its row was terminal. */
  lemma SliceIsOverExactly(c: Config, st: State, quantity: nat, slice: int, attempt: nat)
    requires Current(c) && slice >= 0 && quantity >= 1 && forall o :: o in st.placed ==> o.slice != slice
    ensures Over(AcceptedSends(c, st, quantity, slice, attempt), quantity) > 0 <==> SecondTaken(c, st, quantity, slice, attempt)
  {
    RunTakesPerOrder(c, st, quantity, slice, attempt);
    SliceTakesTwiceExactly(c, st, quantity, slice, attempt);
  }

  ghost predicate CallTakesOnce(c: Config, quantity: nat)
    requires c.freezeQty >= 1
  {
    if quantity <= c.freezeQty then !SecondTaken(c, START, quantity, 0, 0)
    else NoSliceTakesTwice(c, START, Slices(quantity, c.freezeQty))
  }

  /** Errors may hide accepted orders: the broker still never takes more than was asked for. */
  lemma TakenNeverExceedsRequest(c: Config, quantity: nat)
    requires c.freezeQty >= 1 && Current(c) && CallTakesOnce(c, quantity)
    ensures Taken(Ensure(c, START, quantity, 0, 0).0.placed) <= quantity
  {
    if quantity <= c.freezeQty {
      RunTakes(c, START, quantity, 0, 0);
    } else {
      SlicesTakeAtMostTheirSum(c, START, Slices(quantity, c.freezeQty));
      SlicesPartitionRequest(quantity, c.freezeQty);
    }
  }

  ghost predicate NoneRejected(orders: seq<Order>) { forall o :: o in orders ==> !o.rejected }

  ghost predicate ListsNoRejected(book: Book, placed: seq<Order>) {
    book.Listing? && NoneRejected(placed) ==> NoneRejected(book.list(placed))
  }

  /** The broker rejects nothing: no call leaves a rejected order, and a book without one of ours lists none. */
  ghost predicate NothingRejected(c: Config) {
    && (forall slice, n :: c.world(slice, n).Try? ==>
          c.world(slice, n).call != Acked(true) && !(c.world(slice, n).call.Errored? && c.world(slice, n).call.arrived == Some(true)))
    && (forall slice, n, placed :: c.world(slice, n).Try? ==> ListsNoRejected(c.world(slice, n).book, placed))
  }

  lemma AttemptRejectsNothing(c: Config, st: State, slice: int, n: nat, quantity: nat)
    requires NothingRejected(c) && NoneRejected(st.placed)
    ensures NoneRejected(Attempted(st, c.world(slice, n), slice, quantity).placed)
  {
  }

  lemma NothingOverlooked(c: Config, st: State, slice: int, n: nat, quantity: nat)
    requires NothingRejected(c) && NoneRejected(st.placed)
    ensures !Overlooks(st, c.world(slice, n), slice, quantity)
  {
    var a := c.world(slice, n);
    var placed := Attempted(st, a, slice, quantity).placed;
    AttemptRejectsNothing(c, st, slice, n, quantity);
    if LooksUp(a) {
      assert ListsNoRejected(a.book, placed);
      var list := a.book.list(placed);
      var k := FirstMatch(list, quantity);
      if k < |list| { assert list[k] in list; }
    }
  }

  lemma {:induction false} NothingToOverlook(c: Config, st: State, quantity: nat, slice: int, attempt: nat)
    requires NothingRejected(c) && Current(c) && !HasTaken(st.placed, slice) && NoneRejected(st.placed)
    ensures !SecondTaken(c, st, quantity, slice, attempt)
    decreases c.retryAttempts - attempt
  {
    if attempt < c.retryAttempts {
      var a := c.world(slice, attempt);
      AgainAfterTakenExactly(c, st, slice, attempt, quantity);
      NothingOverlooked(c, st, slice, attempt, quantity);
      AttemptRejectsNothing(c, st, slice, attempt, quantity);
      if Judge(st, a, slice, quantity).Again? {
        NothingToOverlook(c, Attempted(st, a, slice, quantity), quantity, slice, attempt + 1);
      }
    }
  }

  lemma {:induction false} RunRejectsNothing(c: Config, st: State, quantity: nat, slice: int, attempt: nat)
    requires NothingRejected(c) && NoneRejected(st.placed)
    ensures NoneRejected(Run(c, st, quantity, slice, attempt).0.placed)
    decreases c.retryAttempts - attempt
  {
    if attempt < c.retryAttempts {
      var next := Attempted(st, c.world(slice, attempt), slice, quantity);
      AttemptRejectsNothing(c, st, slice, attempt, quantity);
      if Judge(st, c.world(slice, attempt), slice, quantity).Again? {
        RunRejectsNothing(c, next, quantity, slice, attempt + 1);
        assert Run(c, st, quantity, slice, attempt) == Run(c, next, quantity, slice, attempt + 1);
      } else {
        assert Run(c, st, quantity, slice, attempt).0 == next;
      }
    }
  }

  lemma {:induction false} NoSliceOverlooks(c: Config, st: State, qs: seq<nat>)
    requires NothingRejected(c) && Current(c) && st.placed == []
    ensures NoSliceTakesTwice(c, st, qs) && NoneRejected(RunSlices(c, st, qs, 0).0.placed)
  {
    if |qs| > 0 {
      var n := |qs| - 1;
      NoSliceOverlooks(c, st, qs[..n]);
      SlicesTakeAtMostTheirSum(c, st, qs[..n]);
      NothingToOverlook(c, RunSlices(c, st, qs[..n], 0).0, qs[n], n, 0);
      RunRejectsNothing(c, RunSlices(c, st, qs[..n], 0).0, qs[n], n, 0);
    }
  }

  /** In particular when the broker rejects nothing, although errors may hide what it accepts. */
  lemma WithoutRejectionsTakenFits(c: Config, quantity: nat)
    requires c.freezeQty >= 1 && Current(c) && NothingRejected(c)
    ensures Taken(Ensure(c, START, quantity, 0, 0).0.placed) <= quantity
  {
    if quantity <= c.freezeQty {
      NothingToOverlook(c, START, quantity, 0, 0);
    } else {
      NoSliceOverlooks(c, START, Slices(quantity, c.freezeQty));
    }
    TakenNeverExceedsRequest(c, quantity);
  }

  const BAD := Order(0, 75, true)

  const GOOD := Order(0, 75, false)

  /** A network error hides an accepted order, and the lookup finds it. */
  function HideOnce(slice: int, n: nat): Attempt {
    var book := Listing((p: seq<Order>) => p);
    Try(false, book, false, Errored(Network, Some(false)), book, Answered)
  }

  lemma HideOnceStep()
    ensures Attempted(START, HideOnce(0, 0), 0, 75) == State([GOOD], 1, map[0 := Saved<Order>.Saved(UNKNOWN, None)])
    ensures Judge(START, HideOnce(0, 0), 0, 75) == Finish(Done(true))
  {
  }

  lemma HiddenOrderIsFound()
    ensures var c := Config(1800, 3, HideOnce);
      && Current(c) && NothingRejected(c) && LooksUp(c.world(0, 0))
      && Taken(Ensure(c, START, 75, 0, 0).0.placed) == 75 && Ensure(c, START, 75, 0, 0).1 == Done(true)
  {
    HideOnceStep();
    TakenOfOne([], GOOD);
    assert [GOOD] == [] + [GOOD];
  }

  /**
   * The world of the failing run: an order error that leaves a rejected order and a failed row, a network
   * error that hides an accepted order behind it, then an acknowledgement.
   */
  function FailThenHide(slice: int, n: nat): Attempt {
    var book := Listing((p: seq<Order>) => p);
    if n == 0 then Try(false, book, false, Errored(OrderError, Some(true)), book, Answered)
    else if n == 1 then Try(false, book, false, Errored(Network, Some(false)), book, Answered)
    else Try(false, book, false, Acked(false), book, Answered)
  }

  const FAILED_ROW := map[0 := Saved<Order>.Saved(FAILED, None)]

  lemma FailThenHideSteps()
    ensures var s1, s2 := State([BAD], 1, FAILED_ROW), State([BAD, GOOD], 2, FAILED_ROW);
      && Attempted(START, FailThenHide(0, 0), 0, 75) == s1 && Judge(START, FailThenHide(0, 0), 0, 75) == Again
      && Attempted(s1, FailThenHide(0, 1), 0, 75) == s2 && Judge(s1, FailThenHide(0, 1), 0, 75) == Again
      && Attempted(s2, FailThenHide(0, 2), 0, 75) == State([BAD, GOOD, GOOD], 3, FAILED_ROW)
      && Judge(s2, FailThenHide(0, 2), 0, 75) == Finish(Done(true))
  {
  }

  /** Three attempts of 75 can leave 150 at the broker. */
  lemma RejectionHidesTakenOrder()
    ensures var c := Config(1800, 3, FailThenHide);
      Current(c) && Taken(Ensure(c, START, 75, 0, 0).0.placed) == 150 && Ensure(c, START, 75, 0, 0).1 == Done(true)
  {
    var c := Config(1800, 3, FailThenHide);
    var end := (State([BAD, GOOD, GOOD], 3, FAILED_ROW), Done(true));
    FailThenHideSteps();
    assert Run(c, State([BAD, GOOD], 2, FAILED_ROW), 75, 0, 2) == end;
    assert Run(c, State([BAD], 1, FAILED_ROW), 75, 0, 1) == end;
    assert Run(c, START, 75, 0, 0) == end;
    assert [BAD, GOOD, GOOD] == [BAD, GOOD] + [GOOD] && [BAD, GOOD] == [BAD] + [GOOD] && [BAD] == [] + [BAD];
    TakenOfOne([BAD, GOOD], GOOD);
    TakenOfOne([BAD], GOOD);
    TakenOfOne([], BAD);
  }

  // ---- retrying a rejected order ----

  /**
   * An acknowledged order that the broker then rejects is retried, but the retry sends a new one exactly
   * when the rejection has reached the saved row; otherwise it waits on the rejected order again.
   */
  lemma RejectedOrderIsResentExactly(st: State, a: Attempt, slice: int, quantity: nat)
    requires a.Try? && slice in st.intents && st.intents[slice].status == SUBMITTED
    requires st.intents[slice].broker.Some? && st.intents[slice].broker.value.rejected
    ensures Sends(st, a, slice, quantity) <==> a.synced
    ensures !a.synced ==> Attempted(st, a, slice, quantity) == st && Judge(st, a, slice, quantity) == Waited(true, a.wait)
  {
    assert st.intents[slice := st.intents[slice]] == st.intents;
  }

  /** So when nobody records the rejection, all retries together send nothing and the call fails. */
  lemma {:induction false} UnrecordedRejectionIsFinal(c: Config, st: State, quantity: nat, slice: int, attempt: nat)
    requires slice in st.intents && st.intents[slice].status == SUBMITTED
    requires st.intents[slice].broker.Some? && st.intents[slice].broker.value.rejected
    requires forall n :: c.world(slice, n).Try? ==> !c.world(slice, n).synced
    ensures Run(c, st, quantity, slice, attempt).0 == st && Run(c, st, quantity, slice, attempt).1 != Done(true)
    decreases c.retryAttempts - attempt
  {
    if attempt < c.retryAttempts {
      if c.world(slice, attempt).Try? { RejectedOrderIsResentExactly(st, c.world(slice, attempt), slice, quantity); }
      UnrecordedRejectionIsFinal(c, st, quantity, slice, attempt + 1);
    }
  }

  // ---- what "successful" means ----

  /** The order whose state a successful attempt reports, when it is not one this attempt sent and had acknowledged. */
  predicate FoundAccepted(st: State, a: Attempt, slice: int, quantity: nat)
    requires a.Try?
  {
    match Decision(st, a, slice, quantity)
    case Withhold => false
    case Reuse(o) => !o.rejected
    case Place =>
      LooksUp(a)
      && (var list := a.book.list(Attempted(st, a, slice, quantity).placed);
          var k := FirstMatch(list, quantity);
          k < |list| && !list[k].rejected)
  }

  /** A finishing attempt reports success without an order taken from its slice exactly when a lookup or the saved row gave it somebody else's. */
  lemma SuccessWithoutOrder(c: Config, st: State, slice: int, n: nat, quantity: nat)
    requires Current(c) && !HasTaken(st.placed, slice)
    ensures var a := c.world(slice, n);
      Judge(st, a, slice, quantity) == Finish(Done(true)) && !HasTaken(Attempted(st, a, slice, quantity).placed, slice) <==>
        a.Try? && a.wait.Answered? && FoundAccepted(st, a, slice, quantity)
        && !(Sends(st, a, slice, quantity) && Accepts(a.call))
  {
    TakenByAttempt(st, c.world(slice, n), slice, quantity);
  }

  /** Slice 0 is taken; slice 1 never arrives and its lookup finds slice 0's order of the same size. */
  function SiblingFound(slice: int, n: nat): Attempt {
    var book := Listing((p: seq<Order>) => p);
    Try(false, book, false, if slice == 1 then Errored(Network, None) else Acked(false), book, Answered)
  }

  lemma SiblingOrderPassesForOwn()
    ensures var c := Config(1800, 3, SiblingFound);
      Ensure(c, START, 3600, 0, 0).1 == Done(true) && Taken(Ensure(c, START, 3600, 0, 0).0.placed) == 1800
  {
    var c := Config(1800, 3, SiblingFound);
    var qs := Slices(3600, 1800);
    assert qs == [1800, 1800];
    assert qs[..1] == [1800] && qs[..1][..0] == [];
    var first, both := SiblingRuns(c);
    assert RunSlices(c, START, qs[..1], 0) == (first, true);
    assert RunSlices(c, START, qs, 0) == (both, true);
    TakenOfOne([], Order(0, 1800, false));
  }

  lemma SiblingRuns(c: Config) returns (first: State, both: State)
    requires c == Config(1800, 3, SiblingFound)
    ensures first.placed == [Order(0, 1800, false)] == both.placed
    ensures Run(c, START, 1800, 0, 0) == (first, Done(true))
    ensures Run(c, first, 1800, 1, 0) == (both, Done(true))
  {
    var own := Order(0, 1800, false);
    first := State([own], 1, map[0 := Saved(SUBMITTED, Some(own))]);
    both := State([own], 2, first.intents[1 := Saved(UNKNOWN, None)]);
    assert Attempted(START, c.world(0, 0), 0, 1800) == first;
    assert Attempted(first, c.world(1, 0), 1, 1800) == both;
    assert Judge(first, c.world(1, 0), 1, 1800) == Finish(Done(true));
  }
}
