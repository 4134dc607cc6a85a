/** The kill switch (lib/killDesk.ts): flatten, pause every Chase book, and put books back to waiting. */
module KillDesk {
  import opened Options
  import opened Text
  import opened ChaseFill
  import opened ChaseDesk
  import opened ChaseReset
  import opened FlattenOpen
  import ChaseSettings
  import SavedOrders

  // ---- which books stay as they are ----

  /** A skipped row that was neither covered by an order nor already flat. */
  predicate Uncovered(s: Skipped, covered: seq<string>) {
    Upper(s.symbol) != "" && s.symbol !in covered && s.reason != "already flat"
  }

  predicate NamePrefix(name: string, symbol: string) { Upper(name) <= Upper(symbol) }

  /** No listed name that also starts the symbol is longer. */
  ghost predicate LongestPrefix(books: seq<string>, name: string, symbol: string) {
    && name in books && NamePrefix(name, symbol)
    && forall other :: other in books && NamePrefix(other, symbol) ==> |other| <= |name|
  }

  ghost predicate KeptBy(books: seq<string>, s: Skipped, covered: seq<string>, name: string) {
    Uncovered(s, covered) && LongestPrefix(books, name, s.symbol)
  }

  ghost predicate KeptOpen(books: seq<string>, skipped: seq<Skipped>, covered: seq<string>, name: string) {
    exists i :: 0 <= i < |skipped| && KeptBy(books, skipped[i], covered, name)
  }

  lemma KeptOneMore(books: seq<string>, skipped: seq<Skipped>, s: Skipped, covered: seq<string>, name: string)
    ensures KeptOpen(books, skipped + [s], covered, name) <==> KeptOpen(books, skipped, covered, name) || KeptBy(books, s, covered, name)
  {
    var more := skipped + [s];
    if KeptOpen(books, skipped, covered, name) {
      var i :| 0 <= i < |skipped| && KeptBy(books, skipped[i], covered, name);
      assert more[i] == skipped[i];
    }
    if KeptBy(books, s, covered, name) { assert more[|skipped|] == s; }
  }

  ghost predicate LongestFirst(names: seq<string>) { forall i, j :: 0 <= i < j < |names| ==> |names[i]| >= |names[j]| }

  function InsertedAt(names: seq<string>, k: nat, name: string): (r: seq<string>)
    requires LongestFirst(names) && k <= |names|
    requires forall j :: 0 <= j < k ==> |names[j]| >= |name|
    requires k < |names| ==> |names[k]| <= |name|
    ensures LongestFirst(r) && multiset(r) == multiset(names) + multiset{name}
  {
    assert names == names[..k] + names[k..];
    names[..k] + [name] + names[k..]
  }

  method SortByLength(books: seq<string>) returns (ordered: seq<string>)
    ensures LongestFirst(ordered) && multiset(ordered) == multiset(books)
  {
    ordered := [];
    for i := 0 to |books|
      invariant LongestFirst(ordered) && multiset(ordered) == multiset(books[..i])
    {
      var k := 0;
      while k < |ordered| && |ordered[k]| >= |books[i]|
        invariant k <= |ordered| && forall j :: 0 <= j < k ==> |ordered[j]| >= |books[i]|
      {
        k := k + 1;
      }
      ordered := InsertedAt(ordered, k, books[i]);
      assert books[..i + 1] == books[..i] + [books[i]];
    }
    assert books[..|books|] == books;
  }

  /** Two names that start one symbol and are equally long are the same name. */
  lemma LongestIsOne(books: seq<string>, a: string, b: string, symbol: string)
    requires LongestPrefix(books, a, symbol) && LongestPrefix(books, b, symbol)
    requires forall name :: name in books ==> Upper(name) == name
    ensures a == b
  {
    assert a == Upper(symbol)[..|a|] && b == Upper(symbol)[..|b|];
  }

  /** For upper-case book names: exactly the longest-prefix matches of the uncovered skipped rows are kept. */
  method ChaseBooksKeptOpen(books: seq<string>, skipped: seq<Skipped>, covered: seq<string>) returns (kept: set<string>)
    requires forall name :: name in books ==> Upper(name) == name
    ensures forall name :: name in kept <==> KeptOpen(books, skipped, covered, name)
  {
    var ordered := SortByLength(books);
    forall name ensures name in ordered <==> name in books {
      assert name in ordered <==> name in multiset(ordered);
      assert name in books <==> name in multiset(books);
    }
    kept := {};
    for i := 0 to |skipped|
      invariant forall name :: name in kept <==> KeptOpen(books, skipped[..i], covered, name)
    {
      var row := skipped[i];
      forall name
        ensures KeptOpen(books, skipped[..i + 1], covered, name)
           <==> KeptOpen(books, skipped[..i], covered, name) || KeptBy(books, row, covered, name)
      {
        assert skipped[..i + 1] == skipped[..i] + [row];
        KeptOneMore(books, skipped[..i], row, covered, name);
      }
      if Upper(row.symbol) != "" && row.symbol !in covered && row.reason != "already flat" {
        var found := FirstMatch(books, ordered, row, covered);
        if found.Some? { kept := kept + {found.value}; }
      }
    }
    assert skipped[..|skipped|] == skipped;
  }

  /** The first match in the sorted list is the one longest prefix. */
  method FirstMatch(books: seq<string>, ordered: seq<string>, row: Skipped, covered: seq<string>) returns (found: Option<string>)
    requires LongestFirst(ordered) && Uncovered(row, covered)
    requires forall name :: name in ordered <==> name in books
    requires forall name :: name in books ==> Upper(name) == name
    ensures forall name :: KeptBy(books, row, covered, name) <==> found == Some(name)
  {
    var k := 0;
    while k < |ordered| && !NamePrefix(ordered[k], row.symbol)
      invariant k <= |ordered| && forall j :: 0 <= j < k ==> !NamePrefix(ordered[j], row.symbol)
    {
      k := k + 1;
    }
    if k == |ordered| {
      return None;
    }
    FirstIsLongest(books, ordered, k, row.symbol);
    forall name | LongestPrefix(books, name, row.symbol) ensures name == ordered[k] {
      LongestIsOne(books, name, ordered[k], row.symbol);
    }
    return Some(ordered[k]);
  }

  lemma FirstIsLongest(books: seq<string>, ordered: seq<string>, k: nat, symbol: string)
    requires LongestFirst(ordered) && k < |ordered| && NamePrefix(ordered[k], symbol)
    requires forall name :: name in ordered <==> name in books
    requires forall j :: 0 <= j < k ==> !NamePrefix(ordered[j], symbol)
    ensures LongestPrefix(books, ordered[k], symbol)
  {
    forall other | other in books && NamePrefix(other, symbol) ensures |other| <= |ordered[k]| {
      assert other in ordered;
      var j :| 0 <= j < |ordered| && ordered[j] == other;
    }
  }

  // ---- the kill ----

  datatype KillResult = KillResult(chasePaused: bool, flattenFailed: bool, liveLeftOpen: bool)

  /** The status alone is written; a failed write is ignored. */
  method UpdateStatus(desk: OperatorDesk, name: string, writeFails: set<string>)
    modifies desk`rows
    ensures forall n :: RowOf(desk.rows, n) == if n == name && name !in writeFails
                                               then RowOf(old(desk.rows), n).(status := AWAITING_SIGNAL) else RowOf(old(desk.rows), n)
  {
    var row := desk.GetChaseStatus(name);
    if name !in writeFails {
      desk.rows := desk.rows[name := row.(status := AWAITING_SIGNAL)];
    }
  }

  method StatusLoop(desk: OperatorDesk, names: seq<string>, kept: set<string>, writeFails: set<string>)
    requires forall i, j :: 0 <= i < j < |names| ==> names[i] != names[j]
    modifies desk`rows
    ensures forall n :: RowOf(desk.rows, n) == if n in names && n !in kept && n !in writeFails
                                               then RowOf(old(desk.rows), n).(status := AWAITING_SIGNAL) else RowOf(old(desk.rows), n)
  {
    ghost var before := desk.rows;
    for i := 0 to |names|
      invariant forall n :: RowOf(desk.rows, n) == if n in names[..i] && n !in kept && n !in writeFails
                                                   then RowOf(before, n).(status := AWAITING_SIGNAL) else RowOf(before, n)
    {
      assert names[..i + 1] == names[..i] + [names[i]];
      if names[i] in kept { continue; }
      UpdateStatus(desk, names[i], writeFails);
    }
    assert names[..|names|] == names;
  }

  function SymbolsOf(f: seq<Flattened>): seq<string> { seq(|f|, i requires 0 <= i < |f| => f[i].symbol) }

  function NamesOf(books: seq<ChaseSettings.Book>): seq<string> {
    seq(|books|, i requires 0 <= i < |books| => books[i].instrument)
  }

  /** What the kill leaves of one book's row: `mid` is the row after the flatten. */
  ghost predicate KilledRow(mid: Row, after: Row, kept: bool) {
    after == if kept then mid else mid.(status := AWAITING_SIGNAL)
  }

  /**
   * Killing everything: `mid` are the rows after the flatten. A book that is kept has its
   * row from then; every other one differs from it in the status only, its breach flag included.
   */
  method RunDeskKill(desk: OperatorDesk, store: ChaseSettings.Store, all: bool, token: bool, pauseFails: bool, w: FlattenOpen.World)
    returns (r: KillResult, ghost mid: map<string, Row>, ghost names: seq<string>)
    requires store.Valid() && "" !in w.chaseBooks
    modifies desk, store
    ensures store.Valid() && r.flattenFailed == !token && r.chasePaused == (all && !pauseFails)
    ensures token ==> exists result ::
      && SquaredOff(if all then ScopeAll else ScopeIntraday, TurnsIn(if all then ScopeAll else ScopeIntraday, w), false, w, result,
                    old(desk.rows), mid)
      && (all ==> forall name :: name in names && name !in w.settled.writeFails ==>
            KilledRow(RowOf(mid, name), RowOf(desk.rows, name), KeptOpen(names, result.skipped, SymbolsOf(result.flattened), name)))
    ensures !token ==> mid == old(desk.rows) && forall name :: RowOf(desk.rows, name) == RowOf(mid, name)
    ensures !all ==> store.table == old(store.table) && forall name :: RowOf(desk.rows, name) == RowOf(mid, name)
    ensures all && !pauseFails ==> store.table == map name | name in old(store.table) :: old(store.table)[name].(paused := true)
    ensures all ==> forall name :: name in names <==> name in store.table
    ensures forall name :: name in w.settled.writeFails ==> RowOf(desk.rows, name) == RowOf(mid, name)
    ensures r.liveLeftOpen <==> token && exists t :: t in TurnsIn(if all then ScopeAll else ScopeIntraday, w) && EndsOn(t, w, MARKET_CLOSED)
    ensures all && token ==> forall name :: name in names && name !in w.settled.writeFails && HeldOpen(RowOf(old(desk.rows), name), w.settled) ==>
      (RowOf(desk.rows, name).status == AWAITING_SIGNAL <==> !RowsKeep(names, TurnsIn(ScopeAll, w), w, name))
    ensures forall name :: name !in names ==> RowOf(desk.rows, name) == RowOf(mid, name)
  {
    var scope := if all then ScopeAll else ScopeIntraday;
    var flatten, _ := FlattenOpenPositions(desk, scope, token, false, w);
    mid, names := desk.rows, [];
    var leftOpen := flatten.Some? && exists s :: s in flatten.value.skipped && s.reason == MARKET_CLOSED;
    var paused := false;
    if all {
      if !pauseFails {
        store.PauseAllChaseBooks();
        paused := true;
      }
      names := KillChase(desk, store, flatten, w.settled.writeFails);
      if flatten.Some? {
        HeldBooksAfterKill(names, w, flatten.value, old(desk.rows), mid, desk.rows);
      }
    }
    if flatten.Some? && !NoRowToClose(scope, w) { SkippedForReason(TurnsIn(scope, w), w, MARKET_CLOSED); }
    r := KillResult(paused, flatten.None?, leftOpen);
  }

  lemma HeldBooksAfterKill(names: seq<string>, w: FlattenOpen.World, r: Result, before: map<string, Row>,
                           mid: map<string, Row>, after: map<string, Row>)
    requires SquaredOff(ScopeAll, TurnsIn(ScopeAll, w), false, w, r, before, mid)
    requires forall name :: name in names && name !in w.settled.writeFails ==>
      KilledRow(RowOf(mid, name), RowOf(after, name), KeptOpen(names, r.skipped, SymbolsOf(r.flattened), name))
    ensures forall name :: name in names && name !in w.settled.writeFails && HeldOpen(RowOf(before, name), w.settled) ==>
      (RowOf(after, name).status == AWAITING_SIGNAL <==> !RowsKeep(names, TurnsIn(ScopeAll, w), w, name))
  {
    forall name | name in names && name !in w.settled.writeFails && HeldOpen(RowOf(before, name), w.settled)
      ensures RowOf(after, name).status == AWAITING_SIGNAL <==> !RowsKeep(names, TurnsIn(ScopeAll, w), w, name)
    {
      KillClearsHeldBookExactly(names, w, r, before, mid, name, RowOf(after, name));
    }
  }

  /** The row is skipped for that reason. */
  predicate EndsOn(t: Turn, w: FlattenOpen.World, reason: string) { !Audited(t, w) && SkipReason(t, w) == reason }

  lemma SkippedForReason(turns: seq<Turn>, w: FlattenOpen.World, reason: string)
    ensures (exists s :: s in SkippedOf(turns, w) && s.reason == reason) <==> exists t :: t in turns && EndsOn(t, w, reason)
  {
    if exists t :: t in turns && EndsOn(t, w, reason) {
      var t :| t in turns && EndsOn(t, w, reason);
      RowsSkipped(turns, w, Skipped(t.row.id, t.row.symbol, SkipReason(t, w)));
    }
    if exists s :: s in SkippedOf(turns, w) && s.reason == reason {
      var s :| s in SkippedOf(turns, w) && s.reason == reason;
      RowsSkipped(turns, w, s);
    }
  }

  /** In particular the kill says that live positions are left open when the market is closed on a live row with size. */
  lemma ClosedMarketIsReported(rows: seq<Position>, w: FlattenOpen.World, i: nat)
    requires i < |rows| && rows[i].live && !w.processMock && !w.marketOpen
    requires if rows[i].id in w.kite then w.kite[rows[i].id] != 0 else rows[i].quantity != 0
    ensures exists t :: t in TurnsOf(rows, w) && EndsOn(t, w, MARKET_CLOSED)
  {
    TurnAt(rows, w, i);
    assert TurnsOf(rows, w)[i] in TurnsOf(rows, w);
    assert EndsOn(TurnsOf(rows, w)[i], w, MARKET_CLOSED);
  }

  /** The status half of a kill over every listed book; a failed flatten keeps them all. */
  method KillChase(desk: OperatorDesk, store: ChaseSettings.Store, flatten: Option<Result>, writeFails: set<string>)
    returns (ghost names: seq<string>)
    requires store.Valid()
    modifies desk`rows, store`cache
    ensures store.Valid() && forall name :: name in names <==> name in store.table
    ensures flatten.None? ==> forall name :: RowOf(desk.rows, name) == RowOf(old(desk.rows), name)
    ensures flatten.Some? ==> forall name :: name in names && name !in writeFails ==>
      KilledRow(RowOf(old(desk.rows), name), RowOf(desk.rows, name),
                KeptOpen(names, flatten.value.skipped, SymbolsOf(flatten.value.flattened), name))
    ensures forall name :: name !in names || name in writeFails ==> RowOf(desk.rows, name) == RowOf(old(desk.rows), name)
  {
    var books := store.ListChaseBooks();
    var listed := NamesOf(books);
    ListedOnce(store, books);
    names := listed;
    var kept: set<string> := set name | name in listed;
    if flatten.Some? {
      kept := ChaseBooksKeptOpen(listed, flatten.value.skipped, SymbolsOf(flatten.value.flattened));
    }
    StatusLoop(desk, listed, kept, writeFails);
  }

  lemma ListedOnce(store: ChaseSettings.Store, books: seq<ChaseSettings.Book>)
    requires store.Valid() && ChaseSettings.IsListing(store.table, books)
    ensures forall i, j :: 0 <= i < j < |books| ==> NamesOf(books)[i] != NamesOf(books)[j]
    ensures forall name :: name in NamesOf(books) <==> name in store.table
    ensures forall name :: name in NamesOf(books) ==> Upper(name) == name
  {
    forall i, j | 0 <= i < j < |books| ensures NamesOf(books)[i] != NamesOf(books)[j] {
      ChaseSettings.BeforeIsTotal(books[i].instrument, books[j].instrument);
    }
    forall name | name in store.table ensures name in NamesOf(books) {
      var i :| 0 <= i < |books| && books[i].instrument == name;
      assert NamesOf(books)[i] == name;
    }
  }

  /** Killing intraday leaves every Chase row alone. */
  lemma IntradayKillTouchesNoBook(w: FlattenOpen.World, r: Result, before: map<string, Row>, mid: map<string, Row>, name: string)
    requires SquaredOff(ScopeIntraday, TurnsIn(ScopeIntraday, w), false, w, r, before, mid)
    ensures RowOf(mid, name) == RowOf(before, name)
  {
    forall t | t in TurnsIn(ScopeIntraday, w) ensures t.row.strategy != CHASE {
      TurnOfRow(SelectRows(ScopeIntraday, w.open), w, t);
    }
  }

  /** Neither the flatten nor, on a kept book, the kill moves a LONG or SHORT that the broker still shows or cannot show. */
  lemma FlattenKeepsHeldBooks(scope: Scope, abort: bool, w: FlattenOpen.World, r: Result, before: map<string, Row>, after: map<string, Row>)
    requires SquaredOff(scope, TurnsIn(scope, w), abort, w, r, before, after)
    ensures KeepsHeldBooks(before, after, w.settled)
  {
    forall name | HeldOpen(RowOf(before, name), w.settled) ensures RowOf(after, name) == RowOf(before, name) {
      HeldOpenIsRefused(RowOf(before, name), w.settled, name);
    }
  }

  /** Some row of this contract was reported: its order went out, or an earlier order was taken for it. */
  predicate ContractReported(turns: seq<Turn>, symbol: string) {
    exists t :: t in turns && t.row.symbol == symbol && Reported(t)
  }

  /**
   * The row ends without an order, new or old, for a reason other than "already flat": the broker itself
   * showed it flat, the market is closed, or its order was stopped, withheld or refused.
   */
  predicate LeftOpen(t: Turn, w: FlattenOpen.World) {
    match t.doing
    case NotTried(_) => PlanOf(t.row, w).Skip? ==> t.row.live && !w.processMock && t.row.id in w.kite
    case Stopped(_, reason) => reason != "already flat"
    case Withheld(_) => true
    case Refused(_, error) => error.reason != "already flat"
    case Reused(_, _) => false
    case Placed(_) => false
  }

  /** A row left open that belongs to this book keeps it from being cleared. */
  ghost predicate RowKeeps(names: seq<string>, turns: seq<Turn>, w: FlattenOpen.World, name: string, t: Turn) {
    && t in turns && t.row.symbol != "" && LeftOpen(t, w) && !ContractReported(turns, t.row.symbol)
    && LongestPrefix(names, name, t.row.symbol)
  }

  ghost predicate RowsKeep(names: seq<string>, turns: seq<Turn>, w: FlattenOpen.World, name: string) {
    exists t :: RowKeeps(names, turns, w, name, t)
  }

  lemma {:induction false} SymbolsReported(turns: seq<Turn>, symbol: string)
    ensures symbol in SymbolsOf(FlattenedOf(turns)) <==> ContractReported(turns, symbol)
  {
    if |turns| > 0 {
      var before, last := turns[..|turns| - 1], turns[|turns| - 1];
      SymbolsReported(before, symbol);
      assert turns == before + [last];
      var f, after := FlattenedOf(before), FlattenedOf(turns);
      assert SymbolsOf(after)[..|f|] == SymbolsOf(f);
      if Reported(last) { assert SymbolsOf(after) == SymbolsOf(f) + [last.row.symbol]; }
    }
  }

  lemma {:induction false} RowsSkipped(turns: seq<Turn>, w: FlattenOpen.World, s: Skipped)
    ensures s in SkippedOf(turns, w)
       <==> exists t :: t in turns && !Audited(t, w) && s == Skipped(t.row.id, t.row.symbol, SkipReason(t, w))
  {
    if |turns| > 0 {
      RowsSkipped(turns[..|turns| - 1], w, s);
      assert turns == turns[..|turns| - 1] + [turns[|turns| - 1]];
    }
  }

  lemma LeftRowIsUncovered(rows: seq<Position>, w: FlattenOpen.World, t: Turn)
    requires t in TurnsOf(rows, w) && !Audited(t, w)
    ensures Uncovered(Skipped(t.row.id, t.row.symbol, SkipReason(t, w)), SymbolsOf(FlattenedOf(TurnsOf(rows, w))))
       <==> t.row.symbol != "" && LeftOpen(t, w) && !ContractReported(TurnsOf(rows, w), t.row.symbol)
  {
    SymbolsReported(TurnsOf(rows, w), t.row.symbol);
    TurnOfRow(rows, w, t);
    ReasonsDiffer();
  }

  /** The kept books, read off the rows and what happens to them. */
  lemma KeptByRows(names: seq<string>, rows: seq<Position>, w: FlattenOpen.World, name: string)
    ensures KeptOpen(names, SkippedOf(TurnsOf(rows, w), w), SymbolsOf(FlattenedOf(TurnsOf(rows, w))), name)
       <==> RowsKeep(names, TurnsOf(rows, w), w, name)
  {
    var turns := TurnsOf(rows, w);
    var skipped, covered := SkippedOf(turns, w), SymbolsOf(FlattenedOf(turns));
    if KeptOpen(names, skipped, covered, name) {
      var i :| 0 <= i < |skipped| && KeptBy(names, skipped[i], covered, name);
      RowsSkipped(turns, w, skipped[i]);
      var t :| t in turns && !Audited(t, w) && skipped[i] == Skipped(t.row.id, t.row.symbol, SkipReason(t, w));
      LeftRowIsUncovered(rows, w, t);
      assert RowKeeps(names, turns, w, name, t);
    }
    if RowsKeep(names, turns, w, name) {
      var t :| RowKeeps(names, turns, w, name, t);
      LeftRowIsUncovered(rows, w, t);
      RowsSkipped(turns, w, Skipped(t.row.id, t.row.symbol, SkipReason(t, w)));
      var i :| 0 <= i < |skipped| && skipped[i] == Skipped(t.row.id, t.row.symbol, SkipReason(t, w));
      assert KeptBy(names, skipped[i], covered, name);
    }
  }

  /**
   * A LONG or SHORT that the broker still shows, or cannot show, when everything is killed: it is put back to
   * waiting, its row otherwise untouched, exactly when no ledger row of the book is left open.
   */
  lemma KillClearsHeldBookExactly(names: seq<string>, w: FlattenOpen.World, r: Result, before: map<string, Row>,
                                  mid: map<string, Row>, name: string, after: Row)
    requires SquaredOff(ScopeAll, TurnsIn(ScopeAll, w), false, w, r, before, mid)
    requires HeldOpen(RowOf(before, name), w.settled)
    requires KilledRow(RowOf(mid, name), after, KeptOpen(names, r.skipped, SymbolsOf(r.flattened), name))
    ensures after.status == AWAITING_SIGNAL <==> !RowsKeep(names, TurnsIn(ScopeAll, w), w, name)
    ensures after == RowOf(before, name).(status := after.status)
  {
    FlattenKeepsHeldBooks(ScopeAll, false, w, r, before, mid);
    KeptByRows(names, SelectRows(ScopeAll, w.open), w, name);
  }

  lemma OneRowSelected(kite: map<string, int>)
    ensures var w := Plain([LiveRow("p1")], kite); SelectRows(ScopeAll, w.open) == [LiveRow("p1")]
  {
    assert [LiveRow("p1")][..0] == [];
  }

  lemma ReportedKeepsNothing(names: seq<string>, t: Turn, w: FlattenOpen.World, name: string)
    requires Reported(t)
    ensures !RowsKeep(names, [t], w, name)
  {
  }

  /**
   * It happens: NIFTY is LONG 75 at the broker, and the ledger has no row, or its row's order went out and has
   * not filled, or no order went out at all because one of the same size was filled some day before.
   */
  lemma HeldBookIsCleared()
    ensures var long := Row(LONG, "NIFTY26OCTFUT", Some(24000.0), Some(25000.0), false, 0);
      var broker := Broker(map["NIFTY26OCTFUT" := 75], map[], true, true, true, {});
      var key := Key("chase", "NIFTY26OCTFUT", SELL, 75);
      var unlisted := Plain([], map[]).(settled := broker);
      var sent := Plain([LiveRow("p1")], map["p1" := 75]).(settled := broker);
      var reused := sent.(saved := map[key := SavedOrders.Saved(SavedOrders.FILLED, Some("old"))]);
      && HeldOpen(long, broker)
      && !RowsKeep(["NIFTY"], TurnsIn(ScopeAll, unlisted), unlisted, "NIFTY")
      && TurnsIn(ScopeAll, sent) == [Turn(LiveRow("p1"), Placed(key))]
      && !RowsKeep(["NIFTY"], TurnsIn(ScopeAll, sent), sent, "NIFTY")
      && TurnsIn(ScopeAll, reused) == [Turn(LiveRow("p1"), Reused(key, "old"))]
      && !RowsKeep(["NIFTY"], TurnsIn(ScopeAll, reused), reused, "NIFTY")
  {
    var broker, key := Broker(map["NIFTY26OCTFUT" := 75], map[], true, true, true, {}), Key("chase", "NIFTY26OCTFUT", SELL, 75);
    var sent := Plain([LiveRow("p1")], map["p1" := 75]).(settled := broker);
    var reused := sent.(saved := map[key := SavedOrders.Saved(SavedOrders.FILLED, Some("old"))]);
    OneRowSelected(map["p1" := 75]);
    TurnsOfOne(LiveRow("p1"), sent);
    TurnsOfOne(LiveRow("p1"), reused);
    assert KeyOf(LiveRow("p1"), sent) == key;
    ReportedKeepsNothing(["NIFTY"], Turn(LiveRow("p1"), Placed(key)), sent, "NIFTY");
    ReportedKeepsNothing(["NIFTY"], Turn(LiveRow("p1"), Reused(key, "old")), reused, "NIFTY");
  }

  /** And a book that the broker shows flat is kept through its ledger row. */
  lemma FlatBookIsKept()
    ensures var w := Plain([LiveRow("p1")], map["p1" := 0]);
      RowsKeep(["NIFTY"], TurnsIn(ScopeAll, w), w, "NIFTY")
  {
    var w := Plain([LiveRow("p1")], map["p1" := 0]);
    OneRowSelected(map["p1" := 0]);
    TurnsOfOne(LiveRow("p1"), w);
    assert Upper("NIFTY") == Upper("NIFTY26OCTFUT")[..5];
    assert RowKeeps(["NIFTY"], TurnsIn(ScopeAll, w), w, "NIFTY", TurnsIn(ScopeAll, w)[0]);
  }
}
