/**
 * The operator's signal reset (lib/chaseReset.ts) and the plan behind resetting every book
 * (lib/operatorActionCopy.ts). Live books only.
 */
module ChaseReset {
  import opened Options
  import opened ChaseFill
  import opened ChaseDesk
  import ChaseSignal

  /** What the broker and the live ledger answer; a symbol missing from `kite` cannot be read. */
  datatype Broker = Broker(kite: map<string, int>, ledger: map<string, int>, ledgerReadable: bool,
                           token: bool, cancelWorks: bool, writeFails: set<string>)

  datatype Reading = Reading(netQty: int, known: bool)

  /** An empty broker answer, read or unread, falls back to the live ledger. */
  function ResolveChaseBook(b: Broker, symbol: string): Option<Reading> {
    var kite := if symbol in b.kite then b.kite[symbol] else 0;
    var ledger := if symbol in b.ledger then b.ledger[symbol] else 0;
    if !b.ledgerReadable then None else Some(Reading(if kite != 0 then kite else ledger, symbol in b.kite))
  }

  datatype Refusal = NotProvedFlat | StillOpen | WriteFailed

  function ChaseResetRefusal(status: Status, netQty: Option<int>, known: bool): Option<Refusal> {
    if !InPosition(status) then None
    else if !known || netQty.None? then Some(NotProvedFlat)
    else if StatusHasPosition(status, netQty.value) then Some(StillOpen)
    else None
  }

  /** A book without a stored row has a fresh one. */
  function RowOf(rows: map<string, Row>, name: string): Row {
    if name in rows then rows[name] else Row(AWAITING_SIGNAL, "", None, None, false, 0)
  }

  function Cleared(today: int): Row { Row(AWAITING_SIGNAL, "", Some(0.0), Some(0.0), false, today) }

  function PendingSide(status: Status): Side { if status in {LONG, AWAITING_LONG} then BUY else SELL }

  /** What a reset cancels is the entry side: a position's exits stay working, also those of a book that turned out flat. */
  lemma ResetLeavesExits(orders: seq<Order>, row: Row, i: nat)
    requires row.status != AWAITING_SIGNAL && i < |orders| && orders[i].side == ExitSide(row.status)
    ensures CancelFirst(orders, row.symbol, PendingSide(row.status))[i] == orders[i]
  {
    var k := FirstWhere(orders, PendingTrigger(row.symbol, PendingSide(row.status)));
    if k < |orders| { assert orders[k].side == PendingSide(row.status); }
  }

  /** Why this book is not reset, if it is not. */
  function Refuses(row: Row, b: Broker, name: string): Option<Refusal> {
    if row.symbol != "" && InPosition(row.status) then
      var read := ResolveChaseBook(b, row.symbol);
      if read.None? then Some(NotProvedFlat)
      else
        var refusal := ChaseResetRefusal(row.status, if read.value.known then Some(read.value.netQty) else None, read.value.known);
        if refusal.Some? then refusal else if name in b.writeFails then Some(WriteFailed) else None
    else if name in b.writeFails then Some(WriteFailed) else None
  }

  datatype Probe = Clear | Open | Unknown

  function ProbeChaseReset(row: Row, b: Broker): Probe {
    if row.symbol == "" || !InPosition(row.status) then Clear
    else
      var read := ResolveChaseBook(b, row.symbol);
      if read.None? then Unknown
      else if StatusHasPosition(row.status, read.value.netQty) then Open
      else Clear
  }

  datatype Plan = Go | CouldNotProve(unknown: seq<string>) | ResetRefused(open: seq<string>)

  function NamesWith(names: seq<string>, probes: seq<Probe>, p: Probe): (found: seq<string>)
    requires |names| == |probes|
    ensures |found| == 0 <==> forall i :: 0 <= i < |probes| ==> probes[i] != p
  {
    if |names| == 0 then []
    else
      var before := NamesWith(names[..|names| - 1], probes[..|names| - 1], p);
      if probes[|names| - 1] == p then before + [names[|names| - 1]] else before
  }

  function PlanChaseSignalReset(names: seq<string>, probes: seq<Probe>): Plan
    requires |names| == |probes|
  {
    if |NamesWith(names, probes, Unknown)| > 0 then CouldNotProve(NamesWith(names, probes, Unknown))
    else if |NamesWith(names, probes, Open)| > 0 then ResetRefused(NamesWith(names, probes, Open))
    else Go
  }

  // ---- what a reset may touch ----

  /** LONG or SHORT on a contract whose quantity cannot be read, or is read and is on that side. */
  predicate HeldOpen(row: Row, b: Broker) {
    && row.symbol != "" && InPosition(row.status)
    && (!b.ledgerReadable || row.symbol !in b.kite || StatusHasPosition(row.status, ResolveChaseBook(b, row.symbol).value.netQty))
  }

  /** No held book was touched. */
  ghost predicate KeepsHeldBooks(before: map<string, Row>, after: map<string, Row>, b: Broker) {
    forall name :: HeldOpen(RowOf(before, name), b) ==> RowOf(after, name) == RowOf(before, name)
  }

  lemma HeldOpenIsRefused(row: Row, b: Broker, name: string)
    ensures HeldOpen(row, b) <==> Refuses(row, b, name) in {Some(NotProvedFlat), Some(StillOpen)}
  {
  }

  /**
   * A LONG or SHORT is refused exactly when its quantity cannot be read, or when the broker, or the ledger where the
   * broker shows nothing, still has it on that side; any other book is reset unless the write fails.
   */
  lemma RefusedExactly(row: Row, b: Broker, name: string)
    ensures var unread := row.symbol != "" && row.status in {LONG, SHORT} && (!b.ledgerReadable || row.symbol !in b.kite);
      var ledger := if row.symbol in b.ledger then b.ledger[row.symbol] else 0;
      var net := if row.symbol in b.kite && b.kite[row.symbol] != 0 then b.kite[row.symbol] else ledger;
      var sized := row.symbol != "" && !unread && ((row.status == LONG && net > 0) || (row.status == SHORT && net < 0));
      && (Refuses(row, b, name) == Some(NotProvedFlat) <==> unread)
      && (Refuses(row, b, name) == Some(StillOpen) <==> sized)
      && (Refuses(row, b, name).None? <==> !unread && !sized && name !in b.writeFails)
  {
  }

  /**
   * The reset refuses by the stored status: an entry that filled but was not promoted yet would become LONG or
   * SHORT in the next open hour. After a reset, which does not refuse it, no hour makes it so.
   */
  lemma ResetOrphansFilledEntry(d: Desk, w: World, b: Broker, name: string, today: int)
    requires Pending(d.row.status) && d.row.symbol != "" && SideHasPosition(d.row.status == AWAITING_LONG, Net(d, d.row.symbol))
    requires name !in b.writeFails && !BlocksEntries(SettingsOf(w, w.book)) && |w.bars| > 0 && WriteOk(d)
    ensures Refuses(d.row, b, name).None?
    ensures StatusHasPosition(Tick(d, w).row.status, Net(d, d.row.symbol)) && Tick(d, w).row.symbol == d.row.symbol
    ensures !InPosition(Tick(d.(row := Cleared(today)), w).row.status)
  {
    ChaseSignal.PromoteWritesStatus(d, w);
  }

  /** A book the reset-all probe passes although the reset then refuses it: LONG or SHORT, unread, flat in the ledger. */
  predicate Blind(row: Row, b: Broker) {
    && row.symbol != "" && InPosition(row.status) && row.symbol !in b.kite
    && !StatusHasPosition(row.status, if row.symbol in b.ledger then b.ledger[row.symbol] else 0)
  }

  /** The reset of this book is refused. */
  predicate Kept(rows: map<string, Row>, b: Broker, name: string) { Refuses(RowOf(rows, name), b, name).Some? }

  function Probes(rows: map<string, Row>, b: Broker, names: seq<string>): seq<Probe> {
    seq(|names|, i requires 0 <= i < |names| => ProbeChaseReset(RowOf(rows, names[i]), b))
  }

  /** The row of one book after resetting the named ones. */
  function AfterReset(rows: map<string, Row>, b: Broker, names: seq<string>, today: int, name: string): Row {
    if name in names && !Kept(rows, b, name) then Cleared(today) else RowOf(rows, name)
  }

  /**
   * Resetting all books is promised to be all or nothing. It is, exactly when no book
   * is blind or every book is: a blind one lets the others be reset and is then refused.
   */
  lemma AllOrNothingExactly(rows: map<string, Row>, b: Broker, names: seq<string>)
    requires PlanChaseSignalReset(names, Probes(rows, b, names)) == Go && b.writeFails == {}
    ensures (forall i :: 0 <= i < |names| ==> Kept(rows, b, names[i])) || (forall i :: 0 <= i < |names| ==> !Kept(rows, b, names[i]))
       <==> (forall i :: 0 <= i < |names| ==> Blind(RowOf(rows, names[i]), b))
            || (forall i :: 0 <= i < |names| ==> !Blind(RowOf(rows, names[i]), b))
  {
    var probes := Probes(rows, b, names);
    forall i | 0 <= i < |names|
      ensures Kept(rows, b, names[i]) <==> Blind(RowOf(rows, names[i]), b)
    {
      assert probes[i] == Clear;
    }
  }

  /** It happens: BANKNIFTY is flat and read, NIFTY is LONG and unread; the first is reset, the second refused. */
  lemma PartialResetHappens()
    ensures var nifty := Row(LONG, "NIFTY26OCTFUT", Some(25000.0), Some(25100.0), false, 0);
      var bank := Row(AWAITING_LONG, "BANKNIFTY26OCTFUT", Some(55000.0), Some(55100.0), false, 0);
      var rows := map["NIFTY" := nifty, "BANKNIFTY" := bank];
      var b := Broker(map["BANKNIFTY26OCTFUT" := 0], map[], true, true, true, {});
      var names := ["NIFTY", "BANKNIFTY"];
      && PlanChaseSignalReset(names, Probes(rows, b, names)) == Go
      && Refuses(nifty, b, "NIFTY") == Some(NotProvedFlat) && Refuses(bank, b, "BANKNIFTY").None?
  {
    var nifty := Row(LONG, "NIFTY26OCTFUT", Some(25000.0), Some(25100.0), false, 0);
    var bank := Row(AWAITING_LONG, "BANKNIFTY26OCTFUT", Some(55000.0), Some(55100.0), false, 0);
    var rows := map["NIFTY" := nifty, "BANKNIFTY" := bank];
    var b := Broker(map["BANKNIFTY26OCTFUT" := 0], map[], true, true, true, {});
    var probes := Probes(rows, b, ["NIFTY", "BANKNIFTY"]);
    assert probes == [Clear, Clear];
    assert "NIFTY26OCTFUT" !in b.kite by { assert |"NIFTY26OCTFUT"| != |"BANKNIFTY26OCTFUT"|; }
  }

  // ---- the desk ----

  datatype ResetResult = Done(instrument: string, previous: Status) | NotDone(instrument: string, previous: Status, why: Refusal)

  class OperatorDesk {
    var rows: map<string, Row>
    var orders: seq<Order>

    constructor (r: map<string, Row>, o: seq<Order>)
      ensures rows == r && orders == o
    {
      rows, orders := r, o;
    }

    /** Creates the row when there is none. */
    method GetChaseStatus(name: string) returns (row: Row)
      modifies `rows
      ensures row == RowOf(old(rows), name) && rows == old(rows)[name := row]
    {
      if name !in rows {
        rows := rows[name := RowOf(rows, name)];
      }
      row := rows[name];
      assert rows == old(rows)[name := row];
    }

    method CancelOrder(b: Broker, symbol: string, side: Side)
      modifies `orders
      ensures orders == if b.cancelWorks then CancelFirst(old(orders), symbol, side) else old(orders)
    {
      if !b.cancelWorks {
        return;
      }
      var k := FirstWhere(orders, PendingTrigger(symbol, side));
      if k < |orders| {
        orders := orders[k := Dead(orders[k])];
      }
    }

    method ResetChaseSignalState(instrument: string, b: Broker, today: int) returns (r: ResetResult)
      modifies this
      ensures var name := if instrument == "" then "NIFTY" else instrument;
        var row := RowOf(old(rows), name);
        && r == (if Refuses(row, b, name).Some? then NotDone(name, row.status, Refuses(row, b, name).value) else Done(name, row.status))
        && rows == old(rows)[name := if r.Done? then Row(AWAITING_SIGNAL, "", Some(0.0), Some(0.0), false, today) else row]
        && (HeldOpen(row, b) ==> orders == old(orders))
        && (!HeldOpen(row, b) ==> orders == if row.symbol != "" && b.token && b.cancelWorks
                                            then CancelFirst(old(orders), row.symbol, PendingSide(row.status)) else old(orders))
    {
      var name := if instrument == "" then "NIFTY" else instrument;
      var row := GetChaseStatus(name);
      if row.symbol != "" && InPosition(row.status) {
        var book := ResolveChaseBook(b, row.symbol);
        if book.None? {
          return NotDone(name, row.status, NotProvedFlat);
        }
        var refusal := ChaseResetRefusal(row.status, if book.value.known then Some(book.value.netQty) else None, book.value.known);
        if refusal.Some? {
          return NotDone(name, row.status, refusal.value);
        }
      }
      if row.symbol != "" && b.token {
        CancelOrder(b, row.symbol, PendingSide(row.status));
      }
      if name in b.writeFails {
        return NotDone(name, row.status, WriteFailed);
      }
      rows := rows[name := Cleared(today)];
      return Done(name, row.status);
    }

    method ProbeAll(names: seq<string>, b: Broker) returns (probes: seq<Probe>)
      modifies `rows
      ensures probes == Probes(old(rows), b, names)
      ensures forall name :: RowOf(rows, name) == RowOf(old(rows), name)
    {
      ghost var before := rows;
      probes := [];
      for i := 0 to |names|
        invariant |probes| == i && forall k :: 0 <= k < i ==> probes[k] == ProbeChaseReset(RowOf(before, names[k]), b)
        invariant forall name :: RowOf(rows, name) == RowOf(before, name)
      {
        var row := GetChaseStatus(names[i]);
        probes := probes + [ProbeChaseReset(row, b)];
      }
    }

    method ResetEach(names: seq<string>, b: Broker, today: int) returns (ok: bool, results: seq<ResetResult>)
      requires forall i, j :: 0 <= i < j < |names| ==> names[i] != names[j]
      requires forall i :: 0 <= i < |names| ==> names[i] != ""
      modifies this
      ensures |results| == |names| && (ok <==> forall i :: 0 <= i < |names| ==> !Kept(old(rows), b, names[i]))
      ensures forall name :: RowOf(rows, name) == AfterReset(old(rows), b, names, today, name)
    {
      ghost var before := rows;
      ok, results := true, [];
      for i := 0 to |names|
        invariant |results| == i
        invariant ok <==> forall k :: 0 <= k < i ==> !Kept(before, b, names[k])
        invariant forall name :: RowOf(rows, name) == AfterReset(before, b, names[..i], today, name)
      {
        assert names[..i + 1] == names[..i] + [names[i]];
        assert RowOf(rows, names[i]) == RowOf(before, names[i]);
        ghost var middle := rows;
        var r := ResetChaseSignalState(names[i], b, today);
        forall name ensures RowOf(rows, name) == AfterReset(before, b, names[..i + 1], today, name) {
          assert RowOf(middle, name) == AfterReset(before, b, names[..i], today, name);
          if name != names[i] { assert name in names[..i + 1] <==> name in names[..i]; }
        }
        results := results + [r];
        if r.NotDone? { ok := false; }
      }
      assert names[..|names|] == names;
    }

    /** Refused by the plan: no row and no order changes. Otherwise every book is reset or refused on its own. */
    method ResetAllChaseSignalState(names: seq<string>, b: Broker, today: int) returns (ok: bool, results: seq<ResetResult>)
      requires forall i, j :: 0 <= i < j < |names| ==> names[i] != names[j]
      requires forall i :: 0 <= i < |names| ==> names[i] != ""
      modifies this
      ensures var go := PlanChaseSignalReset(names, Probes(old(rows), b, names)) == Go;
        && (ok <==> go && forall i :: 0 <= i < |names| ==> !Kept(old(rows), b, names[i]))
        && (!go ==> orders == old(orders) && forall name :: RowOf(rows, name) == RowOf(old(rows), name))
        && (go ==> forall name :: RowOf(rows, name) == AfterReset(old(rows), b, names, today, name))
      ensures KeepsHeldBooks(old(rows), rows, b)
    {
      ghost var before := rows;
      var probes := ProbeAll(names, b);
      if PlanChaseSignalReset(names, probes) != Go {
        return false, [];
      }
      ghost var probed := rows;
      ok, results := ResetEach(names, b, today);
      SameRowsResetAlike(before, probed, b, names, today);
    }
  }

  lemma SameRowsResetAlike(before: map<string, Row>, probed: map<string, Row>, b: Broker, names: seq<string>, today: int)
    requires forall name :: RowOf(probed, name) == RowOf(before, name)
    ensures forall name :: AfterReset(probed, b, names, today, name) == AfterReset(before, b, names, today, name)
    ensures forall name :: Kept(probed, b, name) == Kept(before, b, name)
  {
  }
}
