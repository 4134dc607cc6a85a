/**
 * Squaring off what is open (lib/flattenOpen.ts), with the row plan of
 * lib/trading/bookSplit.ts and the session rule of lib/flattenNotice.ts.
 */
module FlattenOpen {
  import opened Options
  import opened ChaseFill
  import opened ChaseDesk
  import opened ChaseReset
  import opened ChaseUniverse
  import opened SavedOrders

  datatype Strategy = CHASE | ATM_STRADDLE | ATM_STRANGLE | OTHER(name: string)

  predicate Intraday(s: Strategy) { s in {ATM_STRADDLE, ATM_STRANGLE} }

  /** An OPEN ledger row; `live` tells broker size from paper. */
  datatype Position = Position(id: string, symbol: string, strategy: Strategy, jobId: Option<string>, quantity: int, live: bool)

  datatype Scope = ScopeAll | ScopeIntraday | ScopeStrategy(strategy: Strategy) | ScopeChaseBook(instrument: string)
                 | ScopeJob(jobId: string) | ScopePosition(id: string)

  /** The instruction of a square-off as its saved row is keyed: MARKET, purpose SQUARE_OFF, no position and no day. */
  datatype Key = Key(tag: string, symbol: string, side: Side, qty: nat)

  /** A broker call that fails; the order may have arrived all the same. */
  datatype CallError = CallError(reason: string, ambiguous: bool, arrived: bool)

  /**
   * What the square-off meets: the saved rows, and per ledger row id the broker quantity (absent:
   * unreadable), the reason its order is stopped before its saved row is looked up, what the broker's book
   * shows of it and whether its saved row is a minute old, the error of its broker call, the reason its
   * audit write fails; then the positions and the broker as they stand after the orders.
   */
  datatype World = World(open: seq<Position>, processMock: bool, marketOpen: bool, kite: map<string, int>,
                         saved: map<Key, Saved<string>>, stops: map<string, string>, found: map<string, Found<string>>,
                         aged: set<string>, errors: map<string, CallError>, auditFails: map<string, string>, cancelWorks: bool,
                         later: seq<Position>, settled: Broker, chaseBooks: seq<string>,
                         jobStrategy: map<string, Strategy>, abortFails: set<string>, today: int)

  datatype Flattened = Flattened(positionId: string, symbol: string, qty: nat, side: Side)

  datatype Skipped = Skipped(positionId: string, symbol: string, reason: string)

  datatype Result = Result(flattened: seq<Flattened>, skipped: seq<Skipped>, abortedJobs: seq<string>, chaseReset: seq<string>)

  const MARKET_CLOSED := "Market is closed. The position and its stop were left unchanged."

  const ACK_UNKNOWN := "Broker acknowledgement is unknown for an existing order. Not placing another."

  lemma ReasonsDiffer()
    ensures MARKET_CLOSED != "already flat" && ACK_UNKNOWN != "already flat" && "broker already flat" != "already flat"
  {
    assert MARKET_CLOSED == "Market is closed. The position and its stop were left unchanged.";
    assert ACK_UNKNOWN == "Broker acknowledgement is unknown for an existing order. Not placing another.";
    assert |MARKET_CLOSED| == 64 && |ACK_UNKNOWN| == 77 && |"already flat"| == 12 && |"broker already flat"| == 19;
  }

  // ---- rows ----

  predicate InScope(scope: Scope, row: Position) {
    match scope
    case ScopeAll => true
    case ScopeIntraday => Intraday(row.strategy)
    case ScopeStrategy(s) => row.strategy == s
    case ScopeChaseBook(instrument) =>
      row.strategy == CHASE
      && (if ChaseUnderlyingFromSymbol(row.symbol).Some? then ChaseUnderlyingFromSymbol(row.symbol)
          else ChaseInstrumentFromTradingsymbol(row.symbol)) == Some(instrument)
    case ScopePosition(id) => row.id == id
    case ScopeJob(jobId) => row.jobId == Some(jobId)
  }

  function SelectRows(scope: Scope, open: seq<Position>): (rows: seq<Position>)
    ensures forall row :: row in rows <==> row in open && row.quantity != 0 && InScope(scope, row)
  {
    if |open| == 0 then []
    else
      var before, row := SelectRows(scope, open[..|open| - 1]), open[|open| - 1];
      if row.quantity != 0 && InScope(scope, row) then before + [row] else before
  }

  /** A Chase book's scope holds exactly the Chase rows of its own futures. */
  lemma BookScopeIsOwnFutures(row: Position, name: string, suffix: string, book: string)
    requires NameShape(name) && ExpirySuffix(suffix) && row.symbol == name + suffix
    ensures InScope(ScopeChaseBook(book), row) <==> row.strategy == CHASE && name == book
  {
    UnderlyingRoundTrips(name, suffix);
  }

  datatype RowPlan = Flatten(qty: nat, side: Side) | Skip(reason: string)

  /** Live size is the broker's when it answered, the ledger's when it did not; paper is the ledger's. */
  function FlattenRowPlan(ledgerQty: int, paperBook: bool, kiteQueried: bool, kiteQty: int): RowPlan {
    if !paperBook && kiteQueried && kiteQty == 0 then Skip("broker already flat")
    else
      var signed := if !paperBook && kiteQueried then kiteQty else ledgerQty;
      if signed == 0 then Skip("already flat")
      else Flatten(Abs(signed), if signed > 0 then SELL else BUY)
  }

  predicate PaperBook(row: Position, w: World) { w.processMock || !row.live }

  function PlanOf(row: Position, w: World): RowPlan {
    FlattenRowPlan(row.quantity, PaperBook(row, w), !PaperBook(row, w) && row.id in w.kite,
                   if row.id in w.kite then w.kite[row.id] else 0)
  }

  predicate SessionBlocked(row: Position, w: World) { !PaperBook(row, w) && !w.marketOpen }

  /** An order is tried for this row. */
  predicate Attempted(row: Position, w: World) { PlanOf(row, w).Flatten? && !SessionBlocked(row, w) }

  // ---- the saved rows ----

  function KeyOf(row: Position, w: World): Key
    requires PlanOf(row, w).Flatten?
  {
    Key(if row.strategy == CHASE then "chase" else "", row.symbol, PlanOf(row, w).side, PlanOf(row, w).qty)
  }

  function Find(saved: map<Key, Saved<string>>, key: Key): Option<Saved<string>> {
    if key in saved then Some(saved[key]) else None
  }

  /** A paper order is never looked up at the broker. */
  function FoundFor(row: Position, w: World): Found<string> {
    if PaperBook(row, w) || row.id !in w.found then Missing else w.found[row.id]
  }

  function PlacingOf(saved: map<Key, Saved<string>>, row: Position, w: World): Placing<string>
    requires Attempted(row, w)
  {
    DecideBrokerPlace(Find(saved, KeyOf(row, w)), row.id in w.aged, FoundFor(row, w))
  }

  function ReplyOf(row: Position, w: World): Reply {
    if row.id in w.errors then Failed(w.errors[row.id].ambiguous, w.errors[row.id].arrived) else Taken
  }

  /** What becomes of a row: no order is tried, or it is stopped, withheld or refused, an earlier one is taken for it, or it goes out. */
  datatype Doing = NotTried(reason: string) | Stopped(key: Key, reason: string) | Withheld(key: Key)
                 | Refused(key: Key, error: CallError) | Reused(key: Key, order: string) | Placed(key: Key)

  datatype Turn = Turn(row: Position, doing: Doing)

  function DoingOf(saved: map<Key, Saved<string>>, row: Position, w: World): Doing {
    if PlanOf(row, w).Skip? then NotTried(PlanOf(row, w).reason)
    else if SessionBlocked(row, w) then NotTried(MARKET_CLOSED)
    else
      var key := KeyOf(row, w);
      if row.id in w.stops then Stopped(key, w.stops[row.id])
      else match PlacingOf(saved, row, w)
        case Withhold => Withheld(key)
        case Reuse(order) => Reused(key, order)
        case Place => if row.id in w.errors then Refused(key, w.errors[row.id]) else Placed(key)
  }

  /** The saved rows after a row; its new order goes by the row's id. */
  function SavedAfter(saved: map<Key, Saved<string>>, row: Position, w: World): map<Key, Saved<string>> {
    if !Attempted(row, w) || row.id in w.stops then saved
    else
      match RowAfter(Find(saved, KeyOf(row, w)), PlacingOf(saved, row, w), ReplyOf(row, w), row.id)
      case None => saved
      case Some(kept) => saved[KeyOf(row, w) := kept]
  }

  function SavedThrough(rows: seq<Position>, w: World): map<Key, Saved<string>> {
    if |rows| == 0 then w.saved
    else SavedAfter(SavedThrough(rows[..|rows| - 1], w), rows[|rows| - 1], w)
  }

  function TurnsOf(rows: seq<Position>, w: World): (turns: seq<Turn>)
    ensures |turns| == |rows|
  {
    if |rows| == 0 then []
    else
      var before, row := rows[..|rows| - 1], rows[|rows| - 1];
      TurnsOf(before, w) + [Turn(row, DoingOf(SavedThrough(before, w), row, w))]
  }

  /** The order call returned, with a new order or an earlier one. */
  predicate Reported(t: Turn) { t.doing.Placed? || t.doing.Reused? }

  predicate Instructs(t: Turn, key: Key) { !t.doing.NotTried? && t.doing.key == key }

  predicate Audited(t: Turn, w: World) { Reported(t) && t.row.id !in w.auditFails }

  // ---- reports ----

  function FlattenedOf(turns: seq<Turn>): seq<Flattened> {
    if |turns| == 0 then []
    else
      var before, t := FlattenedOf(turns[..|turns| - 1]), turns[|turns| - 1];
      if Reported(t) then before + [Flattened(t.row.id, t.row.symbol, t.doing.key.qty, t.doing.key.side)] else before
  }

  function SkipReason(t: Turn, w: World): string
    requires !Audited(t, w)
  {
    match t.doing
    case NotTried(reason) => reason
    case Stopped(_, reason) => reason
    case Withheld(_) => ACK_UNKNOWN
    case Refused(_, error) => error.reason
    case _ => w.auditFails[t.row.id]
  }

  function SkippedOf(turns: seq<Turn>, w: World): seq<Skipped> {
    if |turns| == 0 then []
    else
      var before, t := SkippedOf(turns[..|turns| - 1], w), turns[|turns| - 1];
      if Audited(t, w) then before else before + [Skipped(t.row.id, t.row.symbol, SkipReason(t, w))]
  }

  function FlattenedIds(f: seq<Flattened>): multiset<string> {
    if |f| == 0 then multiset{} else FlattenedIds(f[..|f| - 1]) + multiset{f[|f| - 1].positionId}
  }

  function SkippedIds(s: seq<Skipped>): multiset<string> {
    if |s| == 0 then multiset{} else SkippedIds(s[..|s| - 1]) + multiset{s[|s| - 1].positionId}
  }

  function TurnIds(turns: seq<Turn>): multiset<string> {
    if |turns| == 0 then multiset{} else TurnIds(turns[..|turns| - 1]) + multiset{turns[|turns| - 1].row.id}
  }

  /** Rows reported as flattened and as skipped at once. */
  function TwiceReported(turns: seq<Turn>, w: World): multiset<string> {
    if |turns| == 0 then multiset{}
    else
      var before, t := TwiceReported(turns[..|turns| - 1], w), turns[|turns| - 1];
      if Reported(t) && !Audited(t, w) then before + multiset{t.row.id} else before
  }

  function Once(id: string, reported: bool): multiset<string> { if reported then multiset{id} else multiset{} }

  lemma FlattenedStep(turns: seq<Turn>)
    requires |turns| > 0
    ensures FlattenedIds(FlattenedOf(turns))
         == FlattenedIds(FlattenedOf(turns[..|turns| - 1])) + Once(turns[|turns| - 1].row.id, Reported(turns[|turns| - 1]))
  {
    var f, after := FlattenedOf(turns[..|turns| - 1]), FlattenedOf(turns);
    if Reported(turns[|turns| - 1]) { assert after[..|f|] == f; }
  }

  lemma SkippedStep(turns: seq<Turn>, w: World)
    requires |turns| > 0
    ensures SkippedIds(SkippedOf(turns, w))
         == SkippedIds(SkippedOf(turns[..|turns| - 1], w)) + Once(turns[|turns| - 1].row.id, !Audited(turns[|turns| - 1], w))
  {
    var s, after := SkippedOf(turns[..|turns| - 1], w), SkippedOf(turns, w);
    if !Audited(turns[|turns| - 1], w) { assert after[..|s|] == s; }
  }

  lemma Rearranged(f: multiset<string>, s: multiset<string>, r: multiset<string>, t: multiset<string>,
                   id: string, sent: bool, audited: bool)
    requires f + s == r + t && (audited ==> sent)
    ensures (f + Once(id, sent)) + (s + Once(id, !audited)) == (r + multiset{id}) + (t + Once(id, sent && !audited))
  {
    calc {
      (f + Once(id, sent)) + (s + Once(id, !audited));
      (f + s) + (Once(id, sent) + Once(id, !audited));
      (r + t) + (multiset{id} + Once(id, sent && !audited));
      (r + multiset{id}) + (t + Once(id, sent && !audited));
    }
  }

  lemma {:induction false} ReportsCount(turns: seq<Turn>, w: World)
    ensures FlattenedIds(FlattenedOf(turns)) + SkippedIds(SkippedOf(turns, w)) == TurnIds(turns) + TwiceReported(turns, w)
  {
    if |turns| > 0 {
      var before, t := turns[..|turns| - 1], turns[|turns| - 1];
      ReportsCount(before, w);
      FlattenedStep(turns);
      SkippedStep(turns, w);
      assert TwiceReported(turns, w) == TwiceReported(before, w) + Once(t.row.id, Reported(t) && !Audited(t, w));
      Rearranged(FlattenedIds(FlattenedOf(before)), SkippedIds(SkippedOf(before, w)), TurnIds(before), TwiceReported(before, w),
                 t.row.id, Reported(t), Audited(t, w));
    }
  }

  lemma {:induction false} NoneTwice(turns: seq<Turn>, w: World)
    ensures TwiceReported(turns, w) == multiset{} <==> forall t :: t in turns && Reported(t) ==> Audited(t, w)
  {
    if |turns| > 0 {
      var last := turns[|turns| - 1];
      NoneTwice(turns[..|turns| - 1], w);
      assert turns == turns[..|turns| - 1] + [last];
      if Reported(last) && !Audited(last, w) { assert last.row.id in TwiceReported(turns, w); }
    }
  }

  /** Every selected row is reported exactly once, unless the audit write behind an order call fails: that one is reported both ways. */
  lemma ReportedOnceExactly(turns: seq<Turn>, w: World)
    ensures FlattenedIds(FlattenedOf(turns)) + SkippedIds(SkippedOf(turns, w)) == TurnIds(turns)
       <==> forall t :: t in turns && Reported(t) ==> t.row.id !in w.auditFails
  {
    ReportsCount(turns, w);
    NoneTwice(turns, w);
    var all, twice := TurnIds(turns), TwiceReported(turns, w);
    if twice != multiset{} {
      var id :| id in twice;
      assert (all + twice)[id] == all[id] + twice[id];
    }
  }

  // ---- which rows get an order of their own ----

  predicate SavedTerminal(saved: map<Key, Saved<string>>, key: Key) {
    key in saved && saved[key].status in {RowStatus.REJECTED, RowStatus.FAILED, RowStatus.CANCELLED}
  }

  predicate SavedKnown(saved: map<Key, Saved<string>>, key: Key) {
    key in saved && !SavedTerminal(saved, key) && saved[key].broker.Some?
  }

  /** The saved row is terminal: it was, or the first call of this run failed for good. */
  predicate FailedBy(turns: seq<Turn>, w: World, key: Key) {
    SavedTerminal(w.saved, key) || exists t :: t in turns && Instructs(t, key) && t.doing.Refused? && !t.doing.error.ambiguous
  }

  /** It knows an order: it did, or an earlier row of this run was reported under it. */
  predicate KnownBy(turns: seq<Turn>, w: World, key: Key) {
    SavedKnown(w.saved, key) || exists t :: t in turns && Instructs(t, key) && Reported(t)
  }

  /** There is one, if only from a call that ended in doubt. */
  predicate SavedBy(turns: seq<Turn>, w: World, key: Key) {
    key in w.saved || exists t :: t in turns && Instructs(t, key) && (Reported(t) || t.doing.Refused?)
  }

  /** What the turns so far leave of one saved row. */
  ghost predicate SavedAs(now: map<Key, Saved<string>>, turns: seq<Turn>, w: World, key: Key) {
    && (SavedTerminal(now, key) <==> FailedBy(turns, w, key))
    && (!FailedBy(turns, w, key) ==> (SavedKnown(now, key) <==> KnownBy(turns, w, key)))
    && (key in now <==> SavedBy(turns, w, key))
  }

  lemma AnotherTurn(turns: seq<Turn>, t: Turn, w: World, key: Key)
    ensures FailedBy(turns + [t], w, key)
       <==> FailedBy(turns, w, key) || (Instructs(t, key) && t.doing.Refused? && !t.doing.error.ambiguous)
    ensures KnownBy(turns + [t], w, key) <==> KnownBy(turns, w, key) || (Instructs(t, key) && Reported(t))
    ensures SavedBy(turns + [t], w, key) <==> SavedBy(turns, w, key) || (Instructs(t, key) && (Reported(t) || t.doing.Refused?))
  {
    assert t in turns + [t];
    assert forall u :: u in turns ==> u in turns + [t];
  }

  lemma TurnSaves(saved: map<Key, Saved<string>>, turns: seq<Turn>, row: Position, w: World, key: Key)
    requires SavedAs(saved, turns, w, key)
    ensures SavedAs(SavedAfter(saved, row, w), turns + [Turn(row, DoingOf(saved, row, w))], w, key)
  {
    AnotherTurn(turns, Turn(row, DoingOf(saved, row, w)), w, key);
  }

  lemma {:induction false} SavedByTurns(rows: seq<Position>, w: World, key: Key)
    ensures SavedAs(SavedThrough(rows, w), TurnsOf(rows, w), w, key)
  {
    if |rows| > 0 {
      var before := rows[..|rows| - 1];
      SavedByTurns(before, w, key);
      TurnSaves(SavedThrough(before, w), TurnsOf(before, w), rows[|rows| - 1], w, key);
    }
  }

  lemma {:induction false} TurnAt(rows: seq<Position>, w: World, i: nat)
    requires i < |rows|
    ensures TurnsOf(rows, w)[..i] == TurnsOf(rows[..i], w)
    ensures TurnsOf(rows, w)[i] == Turn(rows[i], DoingOf(SavedThrough(rows[..i], w), rows[i], w))
  {
    var n := |rows| - 1;
    if i < n {
      TurnAt(rows[..n], w, i);
      assert rows[..n][..i] == rows[..i];
    } else {
      assert TurnsOf(rows, w)[..n] == TurnsOf(rows[..n], w);
    }
  }

  lemma {:induction false} TurnOfRow(rows: seq<Position>, w: World, t: Turn)
    requires t in TurnsOf(rows, w)
    ensures t.row in rows && t.doing.NotTried? == !Attempted(t.row, w)
    ensures !t.doing.NotTried? ==> t.doing.key == KeyOf(t.row, w)
    ensures t.doing.NotTried? ==> t.doing.reason == if PlanOf(t.row, w).Skip? then PlanOf(t.row, w).reason else MARKET_CLOSED
  {
    var n := |rows| - 1;
    if t in TurnsOf(rows[..n], w) { TurnOfRow(rows[..n], w, t); }
  }

  lemma DecidedBySaved(saved: map<Key, Saved<string>>, turns: seq<Turn>, row: Position, w: World)
    requires Attempted(row, w) && SavedAs(saved, turns, w, KeyOf(row, w)) && Reported(Turn(row, DoingOf(saved, row, w)))
    ensures DoingOf(saved, row, w).Placed? <==>
      || FailedBy(turns, w, KeyOf(row, w))
      || (!KnownBy(turns, w, KeyOf(row, w)) && (SavedBy(turns, w, KeyOf(row, w)) ==> row.id in w.aged && FoundFor(row, w).Missing?))
  {
  }

  /**
   * A row reported as flattened has an order of its own exactly when no saved square-off of its tag,
   * contract, side and size stands in its way. One that REJECTED, FAILED or CANCELLED never does; any other
   * one does as soon as it knows an order, from this run or any day before, and until then unless it is a
   * minute old and the broker's book does not show its order.
   */
  lemma OwnOrderExactly(rows: seq<Position>, w: World, i: nat)
    requires i < |rows| && Reported(TurnsOf(rows, w)[i])
    ensures var turns, key := TurnsOf(rows, w), TurnsOf(rows, w)[i].doing.key;
      turns[i].doing.Placed? <==>
        || FailedBy(turns[..i], w, key)
        || (!KnownBy(turns[..i], w, key)
            && (SavedBy(turns[..i], w, key) ==> rows[i].id in w.aged && FoundFor(rows[i], w).Missing?))
  {
    TurnAt(rows, w, i);
    SavedByTurns(rows[..i], w, KeyOf(rows[i], w));
    DecidedBySaved(SavedThrough(rows[..i], w), TurnsOf(rows[..i], w), rows[i], w);
  }

  /** The size a row is squared off by: a paper row's own, a live one's at the broker, or its own when that is unread. */
  function SizeOf(row: Position, w: World): int {
    if w.processMock || !row.live || row.id !in w.kite then row.quantity else w.kite[row.id]
  }

  /** The saved row lets this row place: it is terminal or absent, or knows no order, is old enough and the broker shows none. */
  predicate PlacesBy(before: seq<Turn>, w: World, key: Key, row: Position) {
    || FailedBy(before, w, key) || !SavedBy(before, w, key)
    || (!KnownBy(before, w, key) && row.id in w.aged && FoundFor(row, w).Missing?)
  }

  /** It gives an earlier order: it knows one, or the broker shows it. */
  predicate ReusesBy(before: seq<Turn>, w: World, key: Key, row: Position) {
    !FailedBy(before, w, key) && SavedBy(before, w, key) && (KnownBy(before, w, key) || FoundFor(row, w).Match?)
  }

  lemma SavedDecides(saved: map<Key, Saved<string>>, before: seq<Turn>, row: Position, w: World)
    requires Attempted(row, w) && SavedAs(saved, before, w, KeyOf(row, w))
    ensures PlacingOf(saved, row, w).Place? <==> PlacesBy(before, w, KeyOf(row, w), row)
    ensures PlacingOf(saved, row, w).Reuse? <==> ReusesBy(before, w, KeyOf(row, w), row)
  {
  }

  /**
   * A selected row is reported as flattened exactly when it has size, on paper at any hour and live in the session
   * only, its order is not stopped, and its saved row gives an earlier order or lets a new one go out
   * without an error. The order is of its size, against its sign, under the Chase tag for Chase rows alone.
   */
  lemma RowIsReportedExactly(rows: seq<Position>, w: World, i: nat)
    requires i < |rows|
    ensures var row, t, size := rows[i], TurnsOf(rows, w)[i], SizeOf(rows[i], w);
      var key := Key(if row.strategy == CHASE then "chase" else "", row.symbol, if size > 0 then SELL else BUY, Abs(size));
      && t.row == row && (!t.doing.NotTried? ==> t.doing.key == key)
      && (Reported(t) <==>
            && size != 0 && (w.processMock || !row.live || w.marketOpen) && row.id !in w.stops
            && (|| (PlacesBy(TurnsOf(rows, w)[..i], w, key, row) && row.id !in w.errors)
                || ReusesBy(TurnsOf(rows, w)[..i], w, key, row)))
  {
    TurnAt(rows, w, i);
    if Attempted(rows[i], w) {
      SavedByTurns(rows[..i], w, KeyOf(rows[i], w));
      SavedDecides(SavedThrough(rows[..i], w), TurnsOf(rows[..i], w), rows[i], w);
    }
  }

  /** A second row of the same instruction gets its own order exactly when the saved row was terminal by then. */
  lemma SecondRowSendsExactly(rows: seq<Position>, w: World, i: nat, j: nat)
    requires i < j < |rows| && Reported(TurnsOf(rows, w)[i]) && Reported(TurnsOf(rows, w)[j])
    requires TurnsOf(rows, w)[j].doing.key == TurnsOf(rows, w)[i].doing.key
    ensures TurnsOf(rows, w)[j].doing.Placed? <==> FailedBy(TurnsOf(rows, w)[..j], w, TurnsOf(rows, w)[j].doing.key)
  {
    var turns := TurnsOf(rows, w);
    OwnOrderExactly(rows, w, j);
    assert turns[..j][i] == turns[i];
    assert turns[i] in turns[..j] && Instructs(turns[i], turns[j].doing.key);
  }

  /** Once an order is known under an instruction, no later square-off sends it again: every row of it is reported with that order. */
  lemma {:induction false} KnownOrderIsReused(rows: seq<Position>, w: World, key: Key)
    requires SavedKnown(w.saved, key)
    ensures key in SavedThrough(rows, w) && SavedThrough(rows, w)[key] == w.saved[key]
    ensures forall t :: t in TurnsOf(rows, w) && Instructs(t, key) ==>
              t.doing == Reused(key, w.saved[key].broker.value) || t.doing.Stopped?
  {
    if |rows| > 0 { KnownOrderIsReused(rows[..|rows| - 1], w, key); }
  }

  // ---- orders ----

  function SquareOffOrder(key: Key): Order {
    Order(key.symbol, key.side, OPEN, MARKET, FLATTEN, key.qty, 0, 0.0, 0.0, key.tag == "chase", None)
  }

  /** An order reaches the broker: a placed one, or one whose call failed after it had. */
  predicate Arrives(t: Turn, w: World) {
    !PaperBook(t.row, w) && (t.doing.Placed? || (t.doing.Refused? && t.doing.error.arrived))
  }

  /** A live attempt first cancels a waiting stop on each side, then tries its order. */
  function OrdersAfterRow(orders: seq<Order>, t: Turn, w: World): seq<Order> {
    if t.doing.NotTried? then orders
    else
      var left := if PaperBook(t.row, w) || !w.cancelWorks then orders
                  else CancelFirst(CancelFirst(orders, t.row.symbol, BUY), t.row.symbol, SELL);
      if Arrives(t, w) then left + [SquareOffOrder(t.doing.key)] else left
  }

  function OrdersAfter(orders: seq<Order>, turns: seq<Turn>, w: World): seq<Order> {
    if |turns| == 0 then orders
    else OrdersAfterRow(OrdersAfter(orders, turns[..|turns| - 1], w), turns[|turns| - 1], w)
  }

  /** Orders on a contract with no live attempt are exactly as they were. */
  lemma {:induction false} UntouchedOrders(orders: seq<Order>, turns: seq<Turn>, w: World, k: nat)
    requires k < |orders|
    requires forall t :: t in turns && !t.doing.NotTried? && !PaperBook(t.row, w) ==> t.row.symbol != orders[k].symbol
    ensures k < |OrdersAfter(orders, turns, w)| && OrdersAfter(orders, turns, w)[k] == orders[k]
  {
    if |turns| > 0 {
      UntouchedOrders(orders, turns[..|turns| - 1], w, k);
      assert turns[|turns| - 1] in turns;
    }
  }

  /**
   * A live row for which nothing reaches the broker keeps its waiting stop exactly when it was passed over
   * before an order was tried, or the cancel failed: a stopped, withheld or refused order and one
   * taken for an earlier one leave the position without its stop.
   */
  lemma RowKeepsStopExactly(orders: seq<Order>, t: Turn, w: World, k: nat)
    requires t.row.live && !w.processMock && !Arrives(t, w)
    requires k < |orders| && k == FirstWhere(orders, PendingTrigger(t.row.symbol, orders[k].side)) && orders[k].symbol == t.row.symbol
    requires orders[k].status == TRIGGER_PENDING
    ensures OrdersAfterRow(orders, t, w)[k] == orders[k] <==> t.doing.NotTried? || !w.cancelWorks
  {
    if !t.doing.NotTried? && w.cancelWorks {
      CancelHitsFirst(orders, t.row.symbol, orders[k].side, k);
    }
  }

  lemma CancelHitsFirst(orders: seq<Order>, symbol: string, side: Side, k: nat)
    requires k < |orders| && k == FirstWhere(orders, PendingTrigger(symbol, side)) && orders[k].side == side
    ensures var after := CancelFirst(CancelFirst(orders, symbol, BUY), symbol, SELL);
      |after| == |orders| && after[k].status == OrderStatus.CANCELLED
  {
    var bought := CancelFirst(orders, symbol, BUY);
    if side == SELL {
      var b := FirstWhere(orders, PendingTrigger(symbol, BUY));
      assert k != b;
      assert bought[k] == orders[k];
      var s := FirstWhere(bought, PendingTrigger(symbol, SELL));
      assert s <= k;
      assert PendingTrigger(symbol, SELL)(bought[s]);
    }
  }

  function SentOn(turns: seq<Turn>, w: World, symbol: string): nat {
    if |turns| == 0 then 0
    else
      var before, t := SentOn(turns[..|turns| - 1], w, symbol), turns[|turns| - 1];
      if t.row.symbol == symbol && Arrives(t, w) then before + t.doing.key.qty else before
  }

  function SentCount(turns: seq<Turn>, w: World, symbol: string): nat {
    if |turns| == 0 then 0
    else
      var before, t := SentCount(turns[..|turns| - 1], w, symbol), turns[|turns| - 1];
      if t.row.symbol == symbol && Arrives(t, w) then before + 1 else before
  }

  /** Live rows of one contract, all read while the broker still shows the same net. */
  ghost predicate AllShow(rows: seq<Position>, w: World, symbol: string, net: int) {
    forall row :: row in rows && row.symbol == symbol ==> row.live && row.id in w.kite && w.kite[row.id] == net
  }

  ghost predicate AllOf(turns: seq<Turn>, w: World, symbol: string, quantity: nat) {
    forall t :: t in turns && t.row.symbol == symbol && Arrives(t, w) ==> t.doing.key.qty == quantity
  }

  lemma {:induction false} SentIsCounted(turns: seq<Turn>, w: World, symbol: string, quantity: nat)
    requires AllOf(turns, w, symbol, quantity)
    ensures SentOn(turns, w, symbol) == SentCount(turns, w, symbol) * quantity
  {
    if |turns| > 0 {
      assert turns[|turns| - 1] in turns;
      SentIsCounted(turns[..|turns| - 1], w, symbol, quantity);
    }
  }

  lemma EachSendsTheNet(rows: seq<Position>, w: World, symbol: string, net: int)
    requires !w.processMock && AllShow(rows, w, symbol, net)
    ensures SentOn(TurnsOf(rows, w), w, symbol) == SentCount(TurnsOf(rows, w), w, symbol) * Abs(net)
  {
    forall t | t in TurnsOf(rows, w) && t.row.symbol == symbol && Arrives(t, w) ensures t.doing.key.qty == Abs(net) {
      TurnOfRow(rows, w, t);
    }
    SentIsCounted(TurnsOf(rows, w), w, symbol, Abs(net));
  }

  lemma Multiples(c: nat, n: nat)
    requires n > 0
    ensures (c * n <= n <==> c <= 1) && (c * n <= 2 * n <==> c <= 2)
  {
  }

  /**
   * The broker's net is per contract while rows are per strategy: as long as the net has not
   * moved, the square-off of a contract stays within it exactly when at most one row sends.
   */
  lemma OneRowPerContractExactly(rows: seq<Position>, w: World, symbol: string, net: int)
    requires !w.processMock && net != 0 && AllShow(rows, w, symbol, net)
    ensures SentOn(TurnsOf(rows, w), w, symbol) <= Abs(net) <==> SentCount(TurnsOf(rows, w), w, symbol) <= 1
  {
    EachSendsTheNet(rows, w, symbol, net);
    Multiples(SentCount(TurnsOf(rows, w), w, symbol), Abs(net));
  }

  /** What the orders that reach the broker do to the contract once they fill. */
  function Moved(turns: seq<Turn>, w: World, symbol: string): int {
    if |turns| == 0 then 0
    else
      var t := turns[|turns| - 1];
      Moved(turns[..|turns| - 1], w, symbol)
      + (if t.row.symbol == symbol && Arrives(t, w) then (if t.doing.key.side == BUY then t.doing.key.qty else 0 - t.doing.key.qty) else 0)
  }

  lemma {:induction false} EachMovesTheNet(turns: seq<Turn>, w: World, symbol: string, net: int)
    requires forall t :: t in turns && t.row.symbol == symbol && Arrives(t, w) ==>
      t.doing.key.qty == Abs(net) && t.doing.key.side == (if net > 0 then SELL else BUY)
    ensures Moved(turns, w, symbol) == 0 - SentCount(turns, w, symbol) * net
  {
    if |turns| > 0 {
      assert turns[|turns| - 1] in turns;
      EachMovesTheNet(turns[..|turns| - 1], w, symbol, net);
      if turns[|turns| - 1].row.symbol == symbol && Arrives(turns[|turns| - 1], w) {
        OneMoreNet(SentCount(turns[..|turns| - 1], w, symbol), net);
      }
    }
  }

  lemma OneMoreNet(n: nat, net: int)
    ensures (n + 1) * net == n * net + net
  {
  }

  /** Filled, the square-off leaves the contract flat exactly when one row's order reached the broker, no more and no less. */
  lemma SquareOffFlattensExactly(rows: seq<Position>, w: World, symbol: string, net: int)
    requires !w.processMock && net != 0 && AllShow(rows, w, symbol, net)
    ensures net + Moved(TurnsOf(rows, w), w, symbol) == 0 <==> SentCount(TurnsOf(rows, w), w, symbol) == 1
  {
    var turns := TurnsOf(rows, w);
    forall t | t in turns && t.row.symbol == symbol && Arrives(t, w)
      ensures t.doing.key.qty == Abs(net) && t.doing.key.side == (if net > 0 then SELL else BUY)
    {
      TurnOfRow(rows, w, t);
    }
    EachMovesTheNet(turns, w, symbol, net);
    OnlyOnce(SentCount(turns, w, symbol), net);
  }

  lemma OnlyOnce(n: nat, net: int)
    requires net != 0
    ensures net - n * net == 0 <==> n == 1
  {
    if n == 0 || n == 1 {
    } else if net > 0 {
      assert (n - 1) * net > 0;
    } else {
      assert (n - 1) * net < 0;
    }
  }

  /** The two instructions under which rows of a contract with this net are squared off. */
  function KeyFor(chase: bool, symbol: string, net: int): Key {
    Key(if chase then "chase" else "", symbol, if net > 0 then SELL else BUY, Abs(net))
  }

  function PlacedUnder(turns: seq<Turn>, key: Key): nat {
    if |turns| == 0 then 0
    else PlacedUnder(turns[..|turns| - 1], key) + (if turns[|turns| - 1].doing == Placed(key) then 1 else 0)
  }

  lemma PlacedStep(saved: map<Key, Saved<string>>, row: Position, w: World, key: Key)
    requires !SavedTerminal(saved, key) && row.id !in w.errors
    ensures !SavedTerminal(SavedAfter(saved, row, w), key)
    ensures SavedKnown(saved, key) ==> SavedKnown(SavedAfter(saved, row, w), key)
    ensures DoingOf(saved, row, w) == Placed(key) ==> !SavedKnown(saved, key) && SavedKnown(SavedAfter(saved, row, w), key)
  {
  }

  /** While no saved row of the instruction is terminal, all its rows together get one order at most. */
  lemma {:induction false} OneOrderPerInstruction(rows: seq<Position>, w: World, key: Key)
    requires !SavedTerminal(w.saved, key) && forall row :: row in rows ==> row.id !in w.errors
    ensures PlacedUnder(TurnsOf(rows, w), key) <= (if SavedKnown(SavedThrough(rows, w), key) then 1 else 0)
    ensures !SavedTerminal(SavedThrough(rows, w), key)
  {
    if |rows| > 0 {
      var before, last, turns := rows[..|rows| - 1], rows[|rows| - 1], TurnsOf(rows, w);
      assert last in rows;
      OneOrderPerInstruction(before, w, key);
      PlacedStep(SavedThrough(before, w), last, w, key);
      assert turns[..|turns| - 1] == TurnsOf(before, w);
    }
  }

  lemma {:induction false} CountByInstruction(turns: seq<Turn>, w: World, symbol: string, a: Key, b: Key)
    requires a != b
    requires forall t :: t in turns ==> (t.row.symbol == symbol && Arrives(t, w) <==> t.doing == Placed(a) || t.doing == Placed(b))
    ensures SentCount(turns, w, symbol) == PlacedUnder(turns, a) + PlacedUnder(turns, b)
  {
    if |turns| > 0 {
      assert turns[|turns| - 1] in turns;
      CountByInstruction(turns[..|turns| - 1], w, symbol, a, b);
    }
  }

  lemma {:induction false} RefusedHadError(rows: seq<Position>, w: World, t: Turn)
    requires t in TurnsOf(rows, w) && t.doing.Refused?
    ensures t.row.id in w.errors
  {
    var n := |rows| - 1;
    if t in TurnsOf(rows[..n], w) { RefusedHadError(rows[..n], w, t); }
  }

  lemma SentByInstruction(rows: seq<Position>, w: World, symbol: string, net: int)
    requires !w.processMock && net != 0 && AllShow(rows, w, symbol, net) && forall row :: row in rows ==> row.id !in w.errors
    ensures SentCount(TurnsOf(rows, w), w, symbol)
         == PlacedUnder(TurnsOf(rows, w), KeyFor(true, symbol, net)) + PlacedUnder(TurnsOf(rows, w), KeyFor(false, symbol, net))
  {
    var turns, a, b := TurnsOf(rows, w), KeyFor(true, symbol, net), KeyFor(false, symbol, net);
    assert "chase" != "";
    forall t | t in turns ensures t.row.symbol == symbol && Arrives(t, w) <==> t.doing == Placed(a) || t.doing == Placed(b) {
      TurnOfRow(rows, w, t);
      if t.doing.Refused? { RefusedHadError(rows, w, t); }
    }
    CountByInstruction(turns, w, symbol, a, b);
  }

  /** However many rows a contract has, with no terminal row and no failing call twice its net is the most that is sent. */
  lemma TwiceTheNetAtMost(rows: seq<Position>, w: World, symbol: string, net: int)
    requires !w.processMock && net != 0 && AllShow(rows, w, symbol, net) && forall row :: row in rows ==> row.id !in w.errors
    requires forall chase :: !SavedTerminal(w.saved, KeyFor(chase, symbol, net))
    ensures SentOn(TurnsOf(rows, w), w, symbol) <= 2 * Abs(net)
  {
    EachSendsTheNet(rows, w, symbol, net);
    SentByInstruction(rows, w, symbol, net);
    OneOrderPerInstruction(rows, w, KeyFor(true, symbol, net));
    OneOrderPerInstruction(rows, w, KeyFor(false, symbol, net));
    Multiples(SentCount(TurnsOf(rows, w), w, symbol), Abs(net));
  }

  // ---- at concrete inputs ----

  /** An open market, nothing saved, and live rows; nothing else happens. */
  function Plain(open: seq<Position>, kite: map<string, int>): World {
    World.World(open, false, true, kite, map[], map[], map[], {}, map[], map[], true, [],
                Broker(map[], map[], true, true, true, {}), [], map[], {}, 0)
  }

  function LiveRow(id: string): Position { Position(id, "NIFTY26OCTFUT", CHASE, None, 75, true) }

  function LongStop(): Order { Order("NIFTY26OCTFUT", SELL, TRIGGER_PENDING, SL, STOP, 75, 0, 24000.0, 23995.0, true, None) }

  lemma TurnsOfOne(row: Position, w: World)
    ensures TurnsOf([row], w) == [Turn(row, DoingOf(w.saved, row, w))]
  {
    assert [row][..0] == [];
  }

  lemma TurnsOfTwo(a: Position, b: Position, w: World)
    ensures TurnsOf([a, b], w) == [Turn(a, DoingOf(w.saved, a, w)), Turn(b, DoingOf(SavedAfter(w.saved, a, w), b, w))]
  {
    assert [a, b][..1] == [a] && [a][..0] == [];
  }

  lemma OneTurn(t: Turn, w: World, symbol: string)
    ensures SentOn([t], w, symbol) == if t.row.symbol == symbol && Arrives(t, w) then t.doing.key.qty else 0
    ensures FlattenedOf([t]) == if Reported(t) then [Flattened(t.row.id, t.row.symbol, t.doing.key.qty, t.doing.key.side)] else []
  {
    assert [t][..0] == [];
  }

  lemma StopIsCancelled()
    ensures CancelFirst(CancelFirst([LongStop()], "NIFTY26OCTFUT", BUY), "NIFTY26OCTFUT", SELL) == [Dead(LongStop())]
  {
    assert CancelFirst([LongStop()], "NIFTY26OCTFUT", BUY) == [LongStop()];
  }

  /** A refused order: the row is skipped, and its stop is gone. */
  lemma RefusedOrderLosesStop()
    ensures var w := Plain([LiveRow("p1")], map["p1" := 75]).(errors := map["p1" := CallError("margin", false, false)]);
      var turns := TurnsOf([LiveRow("p1")], w);
      && SkippedOf(turns, w) == [Skipped("p1", "NIFTY26OCTFUT", "margin")]
      && OrdersAfter([LongStop()], turns, w) == [Dead(LongStop())]
  {
    var w := Plain([LiveRow("p1")], map["p1" := 75]).(errors := map["p1" := CallError("margin", false, false)]);
    TurnsOfOne(LiveRow("p1"), w);
    var turns := TurnsOf([LiveRow("p1")], w);
    assert turns[..0] == [];
    StopIsCancelled();
  }

  /**
   * A square-off of 75 that filled last week: today's of the same size is reported as flattened with last
   * week's order, nothing is sent, and the stop is gone.
   */
  lemma OldSquareOffIsReused()
    ensures var key := Key("chase", "NIFTY26OCTFUT", SELL, 75);
      var w := Plain([LiveRow("p1")], map["p1" := 75]).(saved := map[key := Saved(FILLED, Some("old"))]);
      var turns := TurnsOf([LiveRow("p1")], w);
      && FlattenedOf(turns) == [Flattened("p1", "NIFTY26OCTFUT", 75, SELL)] && SkippedOf(turns, w) == []
      && OrdersAfter([LongStop()], turns, w) == [Dead(LongStop())] && SentOn(turns, w, "NIFTY26OCTFUT") == 0
  {
    var key := Key("chase", "NIFTY26OCTFUT", SELL, 75);
    var w := Plain([LiveRow("p1")], map["p1" := 75]).(saved := map[key := Saved(FILLED, Some("old"))]);
    TurnsOfOne(LiveRow("p1"), w);
    var turns := TurnsOf([LiveRow("p1")], w);
    assert KeyOf(LiveRow("p1"), w) == key;
    assert turns == [Turn(LiveRow("p1"), Reused(key, "old"))];
    assert turns[..0] == [];
    StopIsCancelled();
  }

  lemma SameTagTurns(key: Key)
    requires key == Key("chase", "NIFTY26OCTFUT", SELL, 150)
    ensures var rows := [LiveRow("p1"), LiveRow("p2")];
      TurnsOf(rows, Plain(rows, map["p1" := 150, "p2" := 150])) == [Turn(rows[0], Placed(key)), Turn(rows[1], Reused(key, "p1"))]
  {
    var a, b := LiveRow("p1"), LiveRow("p2");
    var w := Plain([a, b], map["p1" := 150, "p2" := 150]);
    assert "p1"[1] != "p2"[1];
    TurnsOfTwo(a, b, w);
    assert KeyOf(a, w) == key && KeyOf(b, w) == key;
    assert SavedAfter(w.saved, a, w) == map[key := Saved(SUBMITTED, Some("p1"))];
  }

  /** Two rows of a contract of which the broker holds 150. Two CHASE rows: one order of 150, reported for both. */
  lemma SameTagSendsOnce()
    ensures var rows := [LiveRow("p1"), LiveRow("p2")];
      var w := Plain(rows, map["p1" := 150, "p2" := 150]);
      && SentOn(TurnsOf(rows, w), w, "NIFTY26OCTFUT") == 150
      && FlattenedOf(TurnsOf(rows, w)) == [Flattened("p1", "NIFTY26OCTFUT", 150, SELL), Flattened("p2", "NIFTY26OCTFUT", 150, SELL)]
  {
    hide DoingOf, SavedAfter, KeyOf, PlanOf;
    var rows, key := [LiveRow("p1"), LiveRow("p2")], Key("chase", "NIFTY26OCTFUT", SELL, 150);
    var w := Plain(rows, map["p1" := 150, "p2" := 150]);
    SameTagTurns(key);
    var one := [Turn(rows[0], Placed(key))];
    OneTurn(one[0], w, "NIFTY26OCTFUT");
    assert TurnsOf(rows, w)[..1] == one;
  }

  /** A CHASE row and one of another strategy: 300 is sent. */
  lemma TwoTagsSendTwice()
    ensures var rows := [LiveRow("p1"), LiveRow("p2").(strategy := ATM_STRADDLE)];
      var w := Plain(rows, map["p1" := 150, "p2" := 150]);
      SentOn(TurnsOf(rows, w), w, "NIFTY26OCTFUT") == 300
  {
    var a, b := LiveRow("p1"), LiveRow("p2").(strategy := ATM_STRADDLE);
    var w := Plain([a, b], map["p1" := 150, "p2" := 150]);
    TurnsOfTwo(a, b, w);
    var turns := TurnsOf([a, b], w);
    assert "chase" != "" && KeyOf(a, w) == Key("chase", "NIFTY26OCTFUT", SELL, 150) && KeyOf(b, w) == Key("", "NIFTY26OCTFUT", SELL, 150);
    assert "p1"[1] != "p2"[1];
    assert turns == [Turn(a, Placed(KeyOf(a, w))), Turn(b, Placed(KeyOf(b, w)))];
    assert turns[..1] == [turns[0]] && turns[..1][..0] == [];
    assert SentOn(turns[..1], w, "NIFTY26OCTFUT") == 150;
  }

  /** A failed audit write: the row is reported as flattened and as skipped. */
  lemma FailedAuditReportsTwice()
    ensures var w := Plain([LiveRow("p1")], map["p1" := 75]).(auditFails := map["p1" := "ledger"]);
      var turns := TurnsOf([LiveRow("p1")], w);
      && FlattenedOf(turns) == [Flattened("p1", "NIFTY26OCTFUT", 75, SELL)]
      && SkippedOf(turns, w) == [Skipped("p1", "NIFTY26OCTFUT", "ledger")]
  {
    var w := Plain([LiveRow("p1")], map["p1" := 75]).(auditFails := map["p1" := "ledger"]);
    TurnsOfOne(LiveRow("p1"), w);
    assert TurnsOf([LiveRow("p1")], w)[..0] == [];
  }

  // ---- jobs and books that follow ----

  predicate NoRepeats(list: seq<string>) { forall i, j :: 0 <= i < j < |list| ==> list[i] != list[j] }

  function Added(list: seq<string>, name: string): (r: seq<string>)
    ensures forall x :: x in r <==> x in list || x == name
    ensures NoRepeats(list) ==> NoRepeats(r)
  {
    if name in list then list else list + [name]
  }

  predicate StillOpenJob(later: seq<Position>, jobId: string) {
    exists row :: row in later && row.quantity != 0 && row.jobId == Some(jobId)
  }

  predicate StillOpenChase(later: seq<Position>, instrument: string) {
    exists row :: row in later && row.strategy == CHASE && row.quantity != 0
      && ChaseInstrumentFromTradingsymbol(row.symbol) == Some(instrument)
  }

  predicate OptionJob(turns: seq<Turn>, w: World, jobId: string) {
    exists t :: t in turns && Audited(t, w) && Intraday(t.row.strategy) && t.row.jobId == Some(jobId)
  }

  predicate ChaseBookOf(turns: seq<Turn>, w: World, instrument: string) {
    exists t :: t in turns && Audited(t, w) && t.row.strategy == CHASE
      && ChaseInstrumentFromTradingsymbol(t.row.symbol) == Some(instrument)
  }

  lemma TriedExactly(saved: map<Key, Saved<string>>, row: Position, w: World)
    ensures DoingOf(saved, row, w).NotTried? <==> !Attempted(row, w)
    ensures Attempted(row, w) ==> DoingOf(saved, row, w).key == KeyOf(row, w)
  {
  }

  /** One turn of the row loop; `job` and `book` are what to follow up, `kept` the saved rows. */
  method SquareOffRow(desk: OperatorDesk, row: Position, w: World, saved: map<Key, Saved<string>>)
    returns (flattened: Option<Flattened>, skipped: Option<Skipped>, job: Option<string>, book: Option<string>,
             kept: map<Key, Saved<string>>)
    modifies desk`orders
    ensures var t := Turn(row, DoingOf(saved, row, w));
      && flattened == (if Reported(t) then Some(Flattened(row.id, row.symbol, t.doing.key.qty, t.doing.key.side)) else None)
      && skipped == (if Audited(t, w) then None else Some(Skipped(row.id, row.symbol, SkipReason(t, w))))
      && job == (if Audited(t, w) && Intraday(row.strategy) then row.jobId else None)
      && book == (if Audited(t, w) && row.strategy == CHASE then ChaseInstrumentFromTradingsymbol(row.symbol) else None)
      && desk.orders == OrdersAfterRow(old(desk.orders), t, w)
    ensures kept == SavedAfter(saved, row, w)
  {
    flattened, skipped, job, book, kept := None, None, None, None, saved;
    TriedExactly(saved, row, w);
    var paperBook := PaperBook(row, w);
    var kiteQueried, kiteQty := false, 0;
    if !paperBook && row.id in w.kite {
      kiteQueried, kiteQty := true, w.kite[row.id];
    }
    var plan := FlattenRowPlan(row.quantity, paperBook, kiteQueried, kiteQty);
    if plan.Skip? {
      skipped := Some(Skipped(row.id, row.symbol, plan.reason));
      return;
    }
    if SessionBlocked(row, w) {
      skipped := Some(Skipped(row.id, row.symbol, MARKET_CLOSED));
      return;
    }
    if !paperBook && w.cancelWorks {
      desk.orders := CancelFirst(desk.orders, row.symbol, BUY);
      desk.orders := CancelFirst(desk.orders, row.symbol, SELL);
    }
    var error;
    error, kept := SubmitFlattenOrder(desk, row, w, saved);
    if error.Some? {
      skipped := Some(Skipped(row.id, row.symbol, error.value));
      return;
    }
    flattened := Some(Flattened(row.id, row.symbol, plan.qty, plan.side));
    if row.id in w.auditFails {
      skipped := Some(Skipped(row.id, row.symbol, w.auditFails[row.id]));
      return;
    }
    if row.strategy == CHASE {
      book := ChaseInstrumentFromTradingsymbol(row.symbol);
    } else if Intraday(row.strategy) {
      job := row.jobId;
    }
  }

  /** The order call of one row, from the gate through the saved row to the broker. */
  method SubmitFlattenOrder(desk: OperatorDesk, row: Position, w: World, saved: map<Key, Saved<string>>)
    returns (error: Option<string>, kept: map<Key, Saved<string>>)
    requires Attempted(row, w)
    modifies desk`orders
    ensures var t := Turn(row, DoingOf(saved, row, w));
      && (error.None? <==> Reported(t)) && (error.Some? ==> error.value == SkipReason(t, w))
      && desk.orders == if Arrives(t, w) then old(desk.orders) + [SquareOffOrder(t.doing.key)] else old(desk.orders)
    ensures kept == SavedAfter(saved, row, w)
  {
    error, kept := None, saved;
    var key := KeyOf(row, w);
    if row.id in w.stops {
      return Some(w.stops[row.id]), saved;
    }
    var found := Find(saved, key);
    var placing := DecideBrokerPlace(found, row.id in w.aged, FoundFor(row, w));
    match placing
    case Withhold =>
      error := Some(ACK_UNKNOWN);
    case Reuse(order) =>
      if found.value.broker != Some(order) { kept := saved[key := Saved(SUBMITTED, Some(order))]; }
    case Place =>
      var marked := Marked(ReplyOf(row, w), row.id);
      if found.None? || !Terminal(found.value) { kept := saved[key := marked]; }
      if !PaperBook(row, w) && (row.id in w.errors ==> w.errors[row.id].arrived) {
        desk.orders := desk.orders + [SquareOffOrder(key)];
      }
      if row.id in w.errors { error := Some(w.errors[row.id].reason); }
  }

  lemma OneMoreTurn(turns: seq<Turn>, t: Turn, w: World)
    ensures (turns + [t])[..|turns|] == turns
    ensures forall j :: OptionJob(turns + [t], w, j) <==>
              OptionJob(turns, w, j) || (Audited(t, w) && Intraday(t.row.strategy) && t.row.jobId == Some(j))
    ensures forall b :: ChaseBookOf(turns + [t], w, b) <==>
              ChaseBookOf(turns, w, b) || (Audited(t, w) && t.row.strategy == CHASE
                                           && ChaseInstrumentFromTradingsymbol(t.row.symbol) == Some(b))
  {
  }

  /** The row loop. */
  method SquareOffRows(desk: OperatorDesk, rows: seq<Position>, w: World)
    returns (flattened: seq<Flattened>, skipped: seq<Skipped>, jobs: seq<string>, books: seq<string>, saved: map<Key, Saved<string>>)
    modifies desk`orders
    ensures flattened == FlattenedOf(TurnsOf(rows, w)) && skipped == SkippedOf(TurnsOf(rows, w), w)
    ensures (forall j :: j in jobs <==> OptionJob(TurnsOf(rows, w), w, j)) && NoRepeats(jobs)
    ensures (forall b :: b in books <==> ChaseBookOf(TurnsOf(rows, w), w, b)) && NoRepeats(books)
    ensures desk.orders == OrdersAfter(old(desk.orders), TurnsOf(rows, w), w)
    ensures saved == SavedThrough(rows, w)
  {
    flattened, skipped, jobs, books, saved := [], [], [], [], w.saved;
    ghost var before, turns := desk.orders, [];
    for i := 0 to |rows|
      invariant turns == TurnsOf(rows[..i], w) && saved == SavedThrough(rows[..i], w)
      invariant flattened == FlattenedOf(turns) && skipped == SkippedOf(turns, w)
      invariant (forall j :: j in jobs <==> OptionJob(turns, w, j)) && NoRepeats(jobs)
      invariant (forall b :: b in books <==> ChaseBookOf(turns, w, b)) && NoRepeats(books)
      invariant desk.orders == OrdersAfter(before, turns, w)
    {
      assert rows[..i + 1][..i] == rows[..i];
      ghost var t := Turn(rows[i], DoingOf(saved, rows[i], w));
      OneMoreTurn(turns, t, w);
      turns := turns + [t];
      var f, s, job, book, kept := SquareOffRow(desk, rows[i], w, saved);
      saved := kept;
      if f.Some? { flattened := flattened + [f.value]; }
      if s.Some? { skipped := skipped + [s.value]; }
      if job.Some? { jobs := Added(jobs, job.value); }
      if book.Some? { books := Added(books, book.value); }
    }
    assert rows[..|rows|] == rows;
  }

  // ---- the square-off ----

  predicate JobCandidate(scope: Scope, turns: seq<Turn>, w: World, jobId: string) {
    || OptionJob(turns, w, jobId)
    || (scope == ScopeJob(jobId) && jobId in w.jobStrategy && Intraday(w.jobStrategy[jobId]))
  }

  predicate BookCandidate(scope: Scope, turns: seq<Turn>, w: World, name: string) {
    || ChaseBookOf(turns, w, name)
    || scope == ScopeChaseBook(name)
    || (scope == ScopeStrategy(CHASE) && name in w.chaseBooks)
  }

  /** Only orders that waited for a trigger changed, and they were cancelled. */
  ghost predicate OnlyCancelled(before: seq<Order>, after: seq<Order>) {
    |before| == |after| && forall i :: 0 <= i < |before| ==>
      after[i] == before[i] || (before[i].status == TRIGGER_PENDING && after[i] == Dead(before[i]))
  }

  /** This book ends up reset. */
  predicate ResetBook(scope: Scope, turns: seq<Turn>, w: World, status: map<string, Row>, name: string) {
    BookCandidate(scope, turns, w, name) && !StillOpenChase(w.later, name) && !Kept(status, w.settled, name)
  }

  function TurnsIn(scope: Scope, w: World): seq<Turn> { TurnsOf(SelectRows(scope, w.open), w) }

  lemma TurnIsInScope(scope: Scope, w: World, t: Turn)
    requires t in TurnsIn(scope, w)
    ensures t.row in w.open && InScope(scope, t.row)
  {
    TurnOfRow(SelectRows(scope, w.open), w, t);
  }

  predicate NoRowToClose(scope: Scope, w: World) { scope.ScopePosition? && |SelectRows(scope, w.open)| == 0 }

  ghost predicate SquaredOff(scope: Scope, turns: seq<Turn>, abortOptionJobs: bool, w: World, r: Result,
                             rowsBefore: map<string, Row>, rowsAfter: map<string, Row>) {
    && r.flattened == FlattenedOf(turns) && r.skipped == SkippedOf(turns, w)
    && (forall j :: j in r.abortedJobs <==>
          abortOptionJobs && JobCandidate(scope, turns, w, j) && !StillOpenJob(w.later, j) && j !in w.abortFails)
    && (forall name :: name in r.chaseReset <==> ResetBook(scope, turns, w, rowsBefore, name))
    && (forall name :: RowOf(rowsAfter, name) == if ResetBook(scope, turns, w, rowsBefore, name) then Cleared(w.today)
                                                 else RowOf(rowsBefore, name))
  }

  /**
   * A job is aborted exactly when aborting is asked for and works, no row of it is open any more, and an
   * option row of it was squared off, or it is the option job that was named.
   */
  lemma JobIsAbortedExactly(scope: Scope, abort: bool, w: World, r: Result, before: map<string, Row>, after: map<string, Row>, j: string)
    requires SquaredOff(scope, TurnsIn(scope, w), abort, w, r, before, after)
    ensures j in r.abortedJobs <==>
      && abort && j !in w.abortFails && !(exists row :: row in w.later && row.quantity != 0 && row.jobId == Some(j))
      && (|| (exists t :: t in TurnsIn(scope, w) && Audited(t, w) && t.row.strategy in {ATM_STRADDLE, ATM_STRANGLE} && t.row.jobId == Some(j))
          || (scope == ScopeJob(j) && j in w.jobStrategy && w.jobStrategy[j] in {ATM_STRADDLE, ATM_STRANGLE}))
  {
  }

  /** Squaring off one job aborts no other. */
  lemma OneJobAbortsItself(jobId: string, abort: bool, w: World, r: Result, before: map<string, Row>, after: map<string, Row>, j: string)
    requires SquaredOff(ScopeJob(jobId), TurnsIn(ScopeJob(jobId), w), abort, w, r, before, after)
    ensures j in r.abortedJobs ==> j == jobId && abort && !StillOpenJob(w.later, jobId)
  {
    forall t | t in TurnsIn(ScopeJob(jobId), w) ensures t.row.jobId == Some(jobId) {
      TurnIsInScope(ScopeJob(jobId), w, t);
    }
  }

  /**
   * A Chase book is reset exactly when the scope names it, or a Chase row that was squared off reads as its by its
   * first letters; no open Chase row reads as its any more, and the reset does not refuse it.
   */
  lemma BookIsResetExactly(scope: Scope, abort: bool, w: World, r: Result, before: map<string, Row>, after: map<string, Row>, name: string)
    requires SquaredOff(scope, TurnsIn(scope, w), abort, w, r, before, after)
    ensures name in r.chaseReset <==>
      && (|| scope == ScopeChaseBook(name) || (scope == ScopeStrategy(CHASE) && name in w.chaseBooks)
          || (exists t :: t in TurnsIn(scope, w) && Audited(t, w) && t.row.strategy == CHASE
                       && ChaseInstrumentFromTradingsymbol(t.row.symbol) == Some(name)))
      && !(exists row :: row in w.later && row.strategy == CHASE && row.quantity != 0
                      && ChaseInstrumentFromTradingsymbol(row.symbol) == Some(name))
      && !Kept(before, w.settled, name)
    ensures name in r.chaseReset ==> RowOf(after, name) == Row(AWAITING_SIGNAL, "", Some(0.0), Some(0.0), false, w.today)
    ensures name !in r.chaseReset ==> RowOf(after, name) == RowOf(before, name)
  {
  }

  /**
   * So squaring off one Chase book resets another one exactly when a flattened contract of the first
   * reads as the other's by its first letters, and that one is neither still open nor refused.
   */
  lemma OneBookResetsAnotherExactly(instrument: string, abort: bool, w: World, r: Result,
                                    before: map<string, Row>, after: map<string, Row>, name: string)
    requires SquaredOff(ScopeChaseBook(instrument), TurnsIn(ScopeChaseBook(instrument), w), abort, w, r, before, after)
    requires name != instrument
    ensures name in r.chaseReset <==>
      && (exists t :: t in TurnsIn(ScopeChaseBook(instrument), w) && Audited(t, w)
                   && ChaseInstrumentFromTradingsymbol(t.row.symbol) == Some(name))
      && !StillOpenChase(w.later, name) && !Kept(before, w.settled, name)
  {
    forall t | t in TurnsIn(ScopeChaseBook(instrument), w) ensures t.row.strategy == CHASE {
      TurnIsInScope(ScopeChaseBook(instrument), w, t);
    }
  }

  method FlattenOpenPositions(desk: OperatorDesk, scope: Scope, token: bool, abortOptionJobs: bool, w: World)
    returns (r: Option<Result>, saved: map<Key, Saved<string>>)
    requires scope != ScopeChaseBook("") && "" !in w.chaseBooks
    modifies desk
    ensures r.None? <==> !token
    ensures !token || NoRowToClose(scope, w) ==> desk.rows == old(desk.rows) && desk.orders == old(desk.orders) && saved == w.saved
    ensures token && NoRowToClose(scope, w) ==> r == Some(Result([], [Skipped(scope.id, "", "already flat")], [], []))
    ensures token && !NoRowToClose(scope, w) ==>
      && SquaredOff(scope, TurnsIn(scope, w), abortOptionJobs, w, r.value, old(desk.rows), desk.rows)
      && OnlyCancelled(OrdersAfter(old(desk.orders), TurnsIn(scope, w), w), desk.orders)
      && saved == SavedThrough(SelectRows(scope, w.open), w)
  {
    if !token {
      return None, w.saved;
    }
    var rows := SelectRows(scope, w.open);
    if scope.ScopePosition? && |rows| == 0 {
      return Some(Result([], [Skipped(scope.id, "", "already flat")], [], [])), w.saved;
    }
    var result, kept := SquareOff(desk, scope, rows, abortOptionJobs, w);
    return Some(result), kept;
  }

  method SquareOff(desk: OperatorDesk, scope: Scope, rows: seq<Position>, abortOptionJobs: bool, w: World)
    returns (r: Result, saved: map<Key, Saved<string>>)
    requires scope != ScopeChaseBook("") && "" !in w.chaseBooks
    modifies desk
    ensures SquaredOff(scope, TurnsOf(rows, w), abortOptionJobs, w, r, old(desk.rows), desk.rows)
    ensures OnlyCancelled(OrdersAfter(old(desk.orders), TurnsOf(rows, w), w), desk.orders)
    ensures saved == SavedThrough(rows, w)
  {
    var flattened, skipped, jobs, books, kept := SquareOffRows(desk, rows, w);
    var aborted, chaseReset := Following(desk, scope, TurnsOf(rows, w), abortOptionJobs, w, jobs, books);
    r, saved := Result(flattened, skipped, aborted, chaseReset), kept;
  }

  /** What follows the row loop: jobs to abort, books to reset. */
  method Following(desk: OperatorDesk, scope: Scope, ghost turns: seq<Turn>, abortOptionJobs: bool, w: World,
                   jobs: seq<string>, books: seq<string>)
    returns (aborted: seq<string>, chaseReset: seq<string>)
    requires scope != ScopeChaseBook("") && "" !in w.chaseBooks && NoRepeats(jobs) && NoRepeats(books)
    requires forall j :: j in jobs <==> OptionJob(turns, w, j)
    requires forall b :: b in books <==> ChaseBookOf(turns, w, b)
    modifies desk
    ensures SquaredOff(scope, turns, abortOptionJobs, w, Result(FlattenedOf(turns), SkippedOf(turns, w), aborted, chaseReset),
                       old(desk.rows), desk.rows)
    ensures OnlyCancelled(old(desk.orders), desk.orders)
  {
    var allJobs, allBooks := FollowUps(scope, turns, w, jobs, books);
    aborted := [];
    if abortOptionJobs {
      aborted := AbortJobs(allJobs, w);
    }
    chaseReset := ResetBooks(desk, allBooks, w);
  }

  /** The jobs and books that the scope adds to those of the rows. */
  method FollowUps(scope: Scope, ghost turns: seq<Turn>, w: World, jobs: seq<string>, books: seq<string>)
    returns (allJobs: seq<string>, allBooks: seq<string>)
    requires scope != ScopeChaseBook("") && "" !in w.chaseBooks && NoRepeats(jobs) && NoRepeats(books)
    requires forall j :: j in jobs <==> OptionJob(turns, w, j)
    requires forall b :: b in books <==> ChaseBookOf(turns, w, b)
    ensures (forall j :: j in allJobs <==> JobCandidate(scope, turns, w, j)) && NoRepeats(allJobs)
    ensures (forall b :: b in allBooks <==> BookCandidate(scope, turns, w, b)) && NoRepeats(allBooks) && "" !in allBooks
  {
    allJobs, allBooks := jobs, books;
    if scope.ScopeChaseBook? {
      allBooks := Added(books, scope.instrument);
    } else if scope == ScopeStrategy(CHASE) {
      allBooks := AddedAll(books, w.chaseBooks);
    }
    if scope.ScopeJob? && scope.jobId in w.jobStrategy && Intraday(w.jobStrategy[scope.jobId]) {
      allJobs := Added(jobs, scope.jobId);
    }
  }

  function AddedAll(list: seq<string>, names: seq<string>): (r: seq<string>)
    ensures forall x :: x in r <==> x in list || x in names
    ensures NoRepeats(list) ==> NoRepeats(r)
  {
    if |names| == 0 then list else Added(AddedAll(list, names[..|names| - 1]), names[|names| - 1])
  }

  method AbortJobs(jobs: seq<string>, w: World) returns (aborted: seq<string>)
    ensures forall j :: j in aborted <==> j in jobs && !StillOpenJob(w.later, j) && j !in w.abortFails
  {
    aborted := [];
    for i := 0 to |jobs|
      invariant forall j :: j in aborted <==> j in jobs[..i] && !StillOpenJob(w.later, j) && j !in w.abortFails
    {
      assert jobs[..i + 1] == jobs[..i] + [jobs[i]];
      if StillOpenJob(w.later, jobs[i]) { continue; }
      if jobs[i] in w.abortFails { continue; }
      aborted := aborted + [jobs[i]];
    }
    assert jobs[..|jobs|] == jobs;
  }

  /** The reset loop over a list that may name a book once. */
  method ResetBooks(desk: OperatorDesk, books: seq<string>, w: World) returns (done: seq<string>)
    requires "" !in books
    requires NoRepeats(books)
    modifies desk
    ensures forall name :: name in done <==> name in books && !StillOpenChase(w.later, name) && !Kept(old(desk.rows), w.settled, name)
    ensures forall name :: RowOf(desk.rows, name) == if name in done then Cleared(w.today) else RowOf(old(desk.rows), name)
    ensures OnlyCancelled(old(desk.orders), desk.orders)
  {
    ghost var before, orders := desk.rows, desk.orders;
    done := [];
    for i := 0 to |books|
      invariant forall name :: name in done <==> name in books[..i] && !StillOpenChase(w.later, name) && !Kept(before, w.settled, name)
      invariant forall name :: RowOf(desk.rows, name) == if name in done then Cleared(w.today) else RowOf(before, name)
      invariant OnlyCancelled(orders, desk.orders)
    {
      assert books[..i + 1] == books[..i] + [books[i]];
      assert books[i] !in books[..i];
      if StillOpenChase(w.later, books[i]) { continue; }
      ghost var mid := desk.rows;
      var reset := desk.ResetChaseSignalState(books[i], w.settled, w.today);
      assert RowOf(mid, books[i]) == RowOf(before, books[i]);
      if reset.Done? { done := done + [books[i]]; }
    }
    assert books[..|books|] == books;
  }
}
