/**
 * The Chase settings table and its read cache (lib/chaseSettings.ts), with the checks of
 * lib/chaseValidation.ts and the defaults of lib/chaseDefaults.ts. Operations run one at a time.
 */
module ChaseSettings {
  import opened Options
  import opened Rounding
  import opened Text
  import opened ChaseFill
  import opened ChaseUniverse

  datatype Classify = PDF_0916 | LEGACY_60M

  datatype Book = Book(instrument: string, lots: int, emaPeriod: int, bufferPercent: real, entryLimitOffset: real,
                       protection: real, paused: bool, enabled: bool, classify: Classify)

  /** Absent fields are None. */
  datatype Patch = Patch(instrument: Option<string>, instruments: Option<seq<string>>, lots: Option<real>,
                         emaPeriod: Option<int>, bufferPercent: Option<real>, entryLimitOffset: Option<real>,
                         protection: Option<real>, paused: Option<bool>, enabled: Option<bool>, classify: Option<Classify>)

  type Table = map<string, Book>

  const CACHE_MS := 5000

  const MASTER := Patch(None, Some(["NIFTY"]), Some(1.0), Some(40), Some(0.2), Some(5.0), Some(1.5), Some(false), None, Some(PDF_0916))

  const PAUSE := Patch(None, None, None, None, None, None, None, Some(true), None, None)

  datatype SettingsError = BadLots | NoInstruments | BadName | BadEmaPeriod | BadBuffer | BadOffset | BadProtection
                         | UnknownBook | Missing(names: seq<string>) | Blocked(reason: string)

  datatype Result<+T> = Ok(value: T) | Err(error: SettingsError)

  function DefaultBook(instrument: string, enabled: bool): Book {
    Book(instrument, 1, 40, 0.2, 5.0, 1.5, !enabled, enabled, PDF_0916)
  }

  // ---- numbers ----

  function Clamp(lo: real, hi: real, x: real): real {
    var floored := if x > lo then x else lo;
    if floored < hi then floored else hi
  }

  function MarketProtection(x: real): real { RoundHalfUp(Clamp(0.25, 5.0, x) * 100.0) as real / 100.0 }

  /** A clamped protection is a whole number of hundredths between 25 and 500, and clamping again keeps it. */
  lemma ProtectionSettles(x: real)
    ensures 0.25 <= MarketProtection(x) <= 5.0
    ensures MarketProtection(MarketProtection(x)) == MarketProtection(x)
  {
    var c := Clamp(0.25, 5.0, x) * 100.0;
    RoundOfInteger(c, 25);
    RoundOfInteger(c, 500);
    var n := RoundHalfUp(c);
    assert MarketProtection(x) * 100.0 == n as real;
    RoundOfInteger(n as real, n);
  }

  /** What every stored book satisfies. */
  ghost predicate Clamped(b: Book) {
    && b.lots >= 1 && 1 <= b.emaPeriod <= 500
    && 0.0 <= b.bufferPercent <= 10.0 && 0.0 <= b.entryLimitOffset <= 100.0
    && 0.25 <= b.protection <= 5.0 && MarketProtection(b.protection) == b.protection
  }

  /** A row as read back: zero lots or period read as the default. */
  function ToBook(row: Book): Book {
    row.(lots := if row.lots == 0 then 1 else row.lots,
         emaPeriod := if row.emaPeriod == 0 then 40 else row.emaPeriod,
         protection := MarketProtection(row.protection))
  }

  lemma StoredReadsBack(b: Book)
    requires Clamped(b)
    ensures ToBook(b) == b
  {
  }

  function WholeLots(x: real): int { if x.Floor == 0 then 1 else x.Floor }

  function Merge(current: Book, p: Patch): Book {
    var lots := if p.lots.Some? then WholeLots(p.lots.value) else if current.lots == 0 then 1 else current.lots;
    var period := if p.emaPeriod.Some? then p.emaPeriod.value else current.emaPeriod;
    Book(current.instrument,
         Max(1, lots),
         Max(1, Min(500, if period == 0 then 40 else period)),
         if p.bufferPercent.None? then current.bufferPercent else Clamp(0.0, 10.0, p.bufferPercent.value),
         if p.entryLimitOffset.None? then current.entryLimitOffset else Clamp(0.0, 100.0, p.entryLimitOffset.value),
         MarketProtection(if p.protection.Some? then p.protection.value else current.protection),
         if p.paused.None? then current.paused else p.paused.value,
         if p.enabled.None? then current.enabled else p.enabled.value,
         if p.classify.Some? then p.classify.value else current.classify)
  }

  /** A save keeps the clamps whatever the patch says, and saving the same patch again changes nothing. */
  lemma MergeKeepsClamps(current: Book, p: Patch)
    requires Clamped(current)
    ensures Clamped(Merge(current, p)) && Merge(current, p).instrument == current.instrument
    ensures Merge(Merge(current, p), p) == Merge(current, p)
  {
    ProtectionSettles(if p.protection.Some? then p.protection.value else current.protection);
  }

  lemma DefaultIsClamped(instrument: string, enabled: bool)
    ensures Clamped(DefaultBook(instrument, enabled))
  {
    assert 1.5 * 100.0 == 150.0;
    RoundOfInteger(150.0, 150);
    assert MarketProtection(1.5) == 1.5;
  }

  /** Pausing writes the pause and nothing else; the defaults write a whole default book. */
  lemma KnownPatches(current: Book, enabled: bool)
    requires Clamped(current)
    ensures Merge(current, PAUSE) == current.(paused := true)
    ensures Merge(current, MASTER.(enabled := Some(enabled), paused := Some(!enabled))) == DefaultBook(current.instrument, enabled)
  {
    DefaultIsClamped(current.instrument, enabled);
  }

  // ---- validation ----

  /** The names a reader makes of a list, without blanks and repeats, in order. */
  function KeptNames(read: string -> Option<string>, raw: seq<string>): (names: seq<string>)
    ensures |names| <= |raw|
    ensures forall i, j :: 0 <= i < j < |names| ==> names[i] != names[j]
  {
    if |raw| == 0 then []
    else
      var before, name := KeptNames(read, raw[..|raw| - 1]), read(raw[|raw| - 1]);
      if name.Some? && name.value !in before then before + [name.value] else before
  }

  /** The listed names, normalised. */
  function NormalizeInstruments(raw: seq<string>): (names: seq<string>)
    ensures |names| <= |raw|
    ensures forall i, j :: 0 <= i < j < |names| ==> names[i] != names[j]
  {
    KeptNames(NormalizeChaseUnderlying, raw)
  }

  function Validate(p: Patch): Option<SettingsError> {
    if p.lots.Some? && (p.lots.value < 1.0 || p.lots.value != p.lots.value.Floor as real) then Some(BadLots)
    else if p.instruments.Some? && p.instrument in {None, Some("")} && |NormalizeInstruments(p.instruments.value)| == 0 then Some(NoInstruments)
    else if p.instruments.Some? && p.instrument in {None, Some("")}
         && |NormalizeInstruments(p.instruments.value)| != |p.instruments.value| then Some(BadName)
    else if p.instrument.Some? && NormalizeChaseUnderlying(p.instrument.value).None? then Some(BadName)
    else if p.emaPeriod.Some? && !(1 <= p.emaPeriod.value <= 500) then Some(BadEmaPeriod)
    else if p.bufferPercent.Some? && !(0.0 <= p.bufferPercent.value <= 10.0) then Some(BadBuffer)
    else if p.entryLimitOffset.Some? && !(0.0 <= p.entryLimitOffset.value <= 100.0) then Some(BadOffset)
    else if p.protection.Some? && !(0.25 <= p.protection.value <= 5.0) then Some(BadProtection)
    else None
  }

  /** A patch that passes is stored as given: no clamp bites except rounding the protection to the cent. */
  lemma ValidatedIsStoredAsGiven(current: Book, p: Patch)
    requires Clamped(current) && Validate(p).None?
    ensures var b := Merge(current, p);
      && (p.lots.Some? ==> b.lots as real == p.lots.value)
      && (p.emaPeriod.Some? ==> b.emaPeriod == p.emaPeriod.value)
      && (p.bufferPercent.Some? ==> b.bufferPercent == p.bufferPercent.value)
      && (p.entryLimitOffset.Some? ==> b.entryLimitOffset == p.entryLimitOffset.value)
      && (p.protection.Some? ==> -0.005 <= b.protection - p.protection.value <= 0.005)
      && (p.protection.None? ==> b.protection == current.protection)
  {
  }

  /** At least one name, each of them read, no two read alike. */
  ghost predicate NamesFine(read: string -> Option<string>, raw: seq<string>) {
    && |raw| > 0 && (forall i :: 0 <= i < |raw| ==> read(raw[i]).Some?)
    && forall i, j :: 0 <= i < j < |raw| ==> read(raw[i]) != read(raw[j])
  }

  lemma {:induction false} KeptAreRead(read: string -> Option<string>, raw: seq<string>, name: string)
    ensures name in KeptNames(read, raw) <==> exists i :: 0 <= i < |raw| && read(raw[i]) == Some(name)
  {
    if |raw| > 0 { KeptAreRead(read, raw[..|raw| - 1], name); }
  }

  /** No name is dropped exactly when all are names and no two alike. */
  lemma {:induction false} NothingDroppedExactly(read: string -> Option<string>, raw: seq<string>)
    requires |raw| > 0
    ensures |KeptNames(read, raw)| == |raw| <==> NamesFine(read, raw)
  {
    var n := |raw| - 1;
    if n > 0 { NothingDroppedExactly(read, raw[..n]); }
    if read(raw[n]).Some? { KeptAreRead(read, raw[..n], read(raw[n]).value); }
    assert forall i :: 0 <= i < n ==> raw[..n][i] == raw[i];
  }

  /**
   * A patch is refused exactly when its names do not do, or a number it gives would not be stored as given,
   * the protection to the nearest hundredth.
   */
  lemma RefusedExactly(current: Book, p: Patch)
    requires Clamped(current)
    ensures var b := Merge(current, p);
      Validate(p).None? <==>
        && (p.instruments.Some? && p.instrument in {None, Some("")} ==> NamesFine(NormalizeChaseUnderlying, p.instruments.value))
        && (p.instrument.Some? ==> NormalizeChaseUnderlying(p.instrument.value).Some?)
        && (p.lots.Some? ==> b.lots as real == p.lots.value)
        && (p.emaPeriod.Some? ==> b.emaPeriod == p.emaPeriod.value)
        && (p.bufferPercent.Some? ==> b.bufferPercent == p.bufferPercent.value)
        && (p.entryLimitOffset.Some? ==> b.entryLimitOffset == p.entryLimitOffset.value)
        && (p.protection.Some? ==> 0.25 <= p.protection.value <= 5.0)
  {
    if p.instruments.Some? && |p.instruments.value| > 0 { NothingDroppedExactly(NormalizeChaseUnderlying, p.instruments.value); }
    if p.lots.Some? { LotsSettleExactly(current, p); }
  }

  lemma LotsSettleExactly(current: Book, p: Patch)
    requires p.lots.Some?
    ensures Merge(current, p).lots as real == p.lots.value <==> p.lots.value >= 1.0 && p.lots.value == p.lots.value.Floor as real
  {
  }

  lemma NiftyIsAName()
    ensures NormalizeInstruments(["NIFTY"]) == ["NIFTY"]
  {
    NameIsOwnUpper("NIFTY");
    assert ["NIFTY"][..0] == [];
    assert NormalizeChaseUnderlying("NIFTY") == Some("NIFTY");
  }

  lemma MasterValidates(p: Patch)
    requires p == PAUSE || p == MASTER.(enabled := p.enabled, paused := p.paused)
    ensures Validate(p).None?
  {
    NiftyIsAName();
    if p != PAUSE { assert p.instruments == Some(["NIFTY"]); }
  }

  // ---- order ----

  function Rank(name: string): nat {
    if name == "NIFTY" then 0 else if name == "BANKNIFTY" then 1
    else if name == "FINNIFTY" then 2 else if name == "MIDCPNIFTY" then 3 else 100
  }

  predicate Less(a: string, b: string) {
    if |a| == 0 || |b| == 0 then |a| < |b| else a[0] < b[0] || (a[0] == b[0] && Less(a[1..], b[1..]))
  }

  predicate Before(a: string, b: string) { Rank(a) < Rank(b) || (Rank(a) == Rank(b) && Less(a, b)) }

  lemma {:induction false} LessIsTotal(a: string, b: string)
    ensures Less(a, b) || Less(b, a) || a == b
    ensures !(Less(a, b) && Less(b, a)) && !Less(a, a)
  {
    if |a| > 0 && |b| > 0 {
      LessIsTotal(a[1..], b[1..]);
      LessIsIrreflexive(a[1..]);
      if a[0] == b[0] && a[1..] == b[1..] { assert a == [a[0]] + a[1..] && b == [b[0]] + b[1..]; }
    } else if |a| > 0 {
      LessIsIrreflexive(a[1..]);
    }
  }

  lemma {:induction false} LessIsIrreflexive(a: string)
    ensures !Less(a, a)
  {
    if |a| > 0 { LessIsIrreflexive(a[1..]); }
  }

  lemma {:induction false} LessIsTransitive(a: string, b: string, c: string)
    requires Less(a, b) && Less(b, c)
    ensures Less(a, c)
  {
    if |a| > 0 && a[0] == b[0] == c[0] { LessIsTransitive(a[1..], b[1..], c[1..]); }
  }

  lemma BeforeIsTotal(a: string, b: string)
    ensures Before(a, b) || Before(b, a) || a == b
    ensures !(Before(a, b) && Before(b, a))
    ensures !Before(a, a)
  {
    LessIsTotal(a, b);
    LessIsIrreflexive(a);
  }

  lemma BeforeIsTransitive(a: string, b: string, c: string)
    requires Before(a, b) && Before(b, c)
    ensures Before(a, c)
  {
    if Rank(a) == Rank(b) == Rank(c) { LessIsTransitive(a, b, c); }
  }

  /** The four indices lead, in their fixed order, and every other name follows them. */
  lemma IndicesLead(name: string)
    requires name !in ["NIFTY", "BANKNIFTY", "FINNIFTY", "MIDCPNIFTY"]
    ensures Before("NIFTY", "BANKNIFTY") && Before("BANKNIFTY", "FINNIFTY") && Before("FINNIFTY", "MIDCPNIFTY")
    ensures Before("MIDCPNIFTY", name) && !Before(name, "MIDCPNIFTY")
  {
    BeforeIsTotal("MIDCPNIFTY", name);
  }

  // ---- listings ----

  ghost predicate InOrder(books: seq<Book>) {
    forall i, j :: 0 <= i < j < |books| ==> Before(books[i].instrument, books[j].instrument)
  }

  /** The books of the table, each once, indices first and then by name. */
  ghost predicate IsListing(table: Table, books: seq<Book>) {
    && InOrder(books)
    && (forall i :: 0 <= i < |books| ==> books[i].instrument in table && books[i] == ToBook(table[books[i].instrument]))
    && (forall name :: name in table ==> exists i :: 0 <= i < |books| && books[i].instrument == name)
  }

  ghost predicate Keyed(table: Table) { forall name :: name in table ==> table[name].instrument == name }

  /** Past a common prefix, a listed name stands at or after that prefix. */
  lemma PlaceOf(table: Table, a: seq<Book>, b: seq<Book>, k: nat) returns (j: nat)
    requires IsListing(table, a) && IsListing(table, b) && k < |a| && k <= |b| && a[..k] == b[..k]
    ensures k <= j < |b| && b[j].instrument == a[k].instrument
    ensures k < j ==> Before(b[k].instrument, a[k].instrument)
  {
    var name := a[k].instrument;
    j :| 0 <= j < |b| && b[j].instrument == name;
    if j < k {
      assert a[j] == a[..k][j] == b[j];
      BeforeIsTotal(name, name);
      assert false;
    }
  }

  lemma SameAfterPrefix(table: Table, a: seq<Book>, b: seq<Book>, k: nat)
    requires IsListing(table, a) && IsListing(table, b) && k < |a| && k <= |b| && a[..k] == b[..k]
    ensures k < |b| && a[k] == b[k]
  {
    var j := PlaceOf(table, a, b, k);
    var i := PlaceOf(table, b, a, k);
    BeforeIsTotal(a[k].instrument, b[k].instrument);
    assert a[k].instrument == b[k].instrument;
  }

  lemma {:induction false} ListingsAgree(table: Table, a: seq<Book>, b: seq<Book>, k: nat)
    requires IsListing(table, a) && IsListing(table, b) && k <= |a|
    ensures k <= |b| && a[..k] == b[..k]
  {
    if k > 0 {
      ListingsAgree(table, a, b, k - 1);
      SameAfterPrefix(table, a, b, k - 1);
      assert a[..k] == a[..k - 1] + [a[k - 1]];
      assert b[..k] == b[..k - 1] + [b[k - 1]];
    }
  }

  /** A table has one listing, whatever order its rows are read in. */
  lemma ListingIsUnique(table: Table, a: seq<Book>, b: seq<Book>)
    requires IsListing(table, a) && IsListing(table, b)
    ensures a == b
  {
    ListingsAgree(table, a, b, |a|);
    ListingsAgree(table, b, a, |b|);
    assert a == a[..|a|] == b[..|a|] && |a| == |b|;
  }

  /** Insertion at the place a name belongs. */
  method Insert(books: seq<Book>, b: Book) returns (r: seq<Book>)
    requires InOrder(books) && forall i :: 0 <= i < |books| ==> books[i].instrument != b.instrument
    ensures InOrder(r) && multiset(r) == multiset(books) + multiset{b}
  {
    var k := 0;
    while k < |books| && Before(books[k].instrument, b.instrument)
      invariant k <= |books| && forall i :: 0 <= i < k ==> Before(books[i].instrument, b.instrument)
    {
      k := k + 1;
    }
    if k < |books| { BeforeIsTotal(books[k].instrument, b.instrument); }
    InsertedInOrder(books, b, k);
    r := books[..k] + [b] + books[k..];
    assert books == books[..k] + books[k..];
  }

  lemma InsertedInOrder(books: seq<Book>, b: Book, k: nat)
    requires InOrder(books) && k <= |books|
    requires forall i :: 0 <= i < k ==> Before(books[i].instrument, b.instrument)
    requires k < |books| ==> Before(b.instrument, books[k].instrument)
    ensures InOrder(books[..k] + [b] + books[k..])
  {
    var r := books[..k] + [b] + books[k..];
    forall i, j | 0 <= i < j < |r| ensures Before(r[i].instrument, r[j].instrument) {
      if i < k < j {
        assert r[i] == books[i] && r[j] == books[j - 1];
      } else if i == k && j - 1 > k {
        assert r[j] == books[j - 1];
        BeforeIsTransitive(b.instrument, books[k].instrument, books[j - 1].instrument);
      }
    }
  }

  ghost predicate Distinct(books: seq<Book>) {
    forall i, j :: 0 <= i < j < |books| ==> books[i].instrument != books[j].instrument
  }

  method OrderBooks(rows: seq<Book>) returns (books: seq<Book>)
    requires Distinct(rows)
    ensures InOrder(books) && multiset(books) == multiset(rows)
  {
    books := [];
    for i := 0 to |rows|
      invariant InOrder(books) && multiset(books) == multiset(rows[..i])
    {
      forall k | 0 <= k < |books| ensures books[k].instrument != rows[i].instrument {
        assert books[k] in multiset(rows[..i]);
      }
      books := Insert(books, rows[i]);
      assert rows[..i + 1] == rows[..i] + [rows[i]];
    }
    assert rows[..|rows|] == rows;
  }

  // ---- saving ----

  function CurrentOf(table: Table, name: string): Book {
    if name in table then ToBook(table[name]) else DefaultBook(name, false)
  }

  /** The table after saving a patch, chosen per book, on the named books. */
  function SavedWhere(table: Table, names: set<string>, patchOf: Book -> Patch): Table {
    map name | name in table :: if name in names then Merge(table[name], patchOf(table[name])) else table[name]
  }

  function NamesIn(books: seq<Book>): set<string> { set b | b in books :: b.instrument }

  lemma SavedOneMore(table: Table, names: set<string>, patchOf: Book -> Patch, name: string)
    requires name in table && name !in names
    ensures SavedWhere(table, names, patchOf)[name] == table[name]
    ensures SavedWhere(table, names, patchOf)[name := Merge(table[name], patchOf(table[name]))]
         == SavedWhere(table, names + {name}, patchOf)
  {
  }

  lemma NamesOfOneMore(books: seq<Book>, i: nat)
    requires i < |books| && InOrder(books)
    ensures books[i].instrument !in NamesIn(books[..i])
    ensures NamesIn(books[..i + 1]) == NamesIn(books[..i]) + {books[i].instrument}
  {
    assert books[..i + 1] == books[..i] + [books[i]];
    forall k | 0 <= k < i ensures books[k].instrument != books[i].instrument {
      BeforeIsTotal(books[k].instrument, books[i].instrument);
    }
  }

  /** On or off by membership; a book turned off is paused, one turned on keeps its pause or takes the asked one. */
  function PickPatch(p: Patch, wanted: seq<string>): Book -> Patch {
    (b: Book) =>
      var on := b.instrument in wanted;
      p.(enabled := Some(on),
         paused := Some(if !on then true else if p.paused.Some? then p.paused.value else b.enabled && b.paused))
  }

  /** Turning books on and off cannot be refused for itself. */
  lemma PickValidates(p: Patch, wanted: seq<string>, b: Book)
    ensures Validate(PickPatch(p, wanted)(b)) == Validate(p)
  {
  }

  function EnabledNames(table: Table): set<string> { set name | name in table && table[name].enabled }

  /** The requested set, exactly, is on afterwards, every other book is paused, and a second save changes nothing. */
  lemma ExactlyRequestedEnabled(table: Table, p: Patch, wanted: seq<string>)
    requires Keyed(table) && forall name :: name in table ==> Clamped(table[name])
    requires forall i :: 0 <= i < |wanted| ==> wanted[i] in table
    ensures var after := SavedWhere(table, table.Keys, PickPatch(p, wanted));
      && EnabledNames(after) == (set name | name in wanted)
      && (forall name :: name in after && name !in wanted ==> after[name].paused)
      && SavedWhere(after, after.Keys, PickPatch(p, wanted)) == after
  {
    var after := SavedWhere(table, table.Keys, PickPatch(p, wanted));
    forall name | name in after
      ensures Merge(after[name], PickPatch(p, wanted)(after[name])) == after[name]
    {
      MergeKeepsClamps(table[name], PickPatch(p, wanted)(table[name]));
    }
  }

  /** The books a page shows as one configuration. */
  datatype Config = Config(primary: Option<Book>, paused: bool, instruments: seq<string>)

  function EnabledIn(books: seq<Book>): (on: seq<Book>)
    ensures forall b :: b in on <==> b in books && b.enabled
  {
    if |books| == 0 then []
    else EnabledIn(books[..|books| - 1]) + (if books[|books| - 1].enabled then [books[|books| - 1]] else [])
  }

  function AggregateChaseConfig(books: seq<Book>): Config {
    var on := EnabledIn(books);
    Config(if |on| > 0 then Some(on[0])
           else if exists b :: b in books && b.instrument == "NIFTY" then FirstNamed(books, "NIFTY")
           else if |books| > 0 then Some(books[0]) else None,
           forall b :: b in on ==> b.paused,
           seq(|on|, i requires 0 <= i < |on| => on[i].instrument))
  }

  function FirstNamed(books: seq<Book>, name: string): (r: Option<Book>)
    ensures r.None? ==> forall b :: b in books ==> b.instrument != name
    ensures r.Some? ==> r.value in books && r.value.instrument == name
  {
    if |books| == 0 then None
    else if books[0].instrument == name then Some(books[0])
    else FirstNamed(books[1..], name)
  }

  lemma {:induction false} EnabledInOrder(books: seq<Book>)
    requires InOrder(books)
    ensures InOrder(EnabledIn(books))
  {
    if |books| > 0 { EnabledInOrder(books[..|books| - 1]); }
  }

  function MissingFrom(wanted: seq<string>, known: set<string>): (missing: seq<string>)
    ensures forall name :: name in missing <==> name in wanted && name !in known
  {
    if |wanted| == 0 then []
    else
      var before := MissingFrom(wanted[..|wanted| - 1], known);
      if wanted[|wanted| - 1] in known then before else before + [wanted[|wanted| - 1]]
  }

  function ResetPatch(): Book -> Patch {
    (b: Book) => MASTER.(enabled := Some(b.instrument == "NIFTY"), paused := Some(b.instrument != "NIFTY"))
  }

  function Defaults(table: Table): Table { map name | name in table :: DefaultBook(name, name == "NIFTY") }

  /** Resetting leaves default books, with NIFTY alone on and running. */
  lemma ResetMakesDefaults(table: Table)
    requires Keyed(table) && forall name :: name in table ==> Clamped(table[name])
    ensures SavedWhere(table, table.Keys, ResetPatch()) == Defaults(table)
    ensures forall b: Book :: Validate(ResetPatch()(b)).None?
  {
    forall b: Book ensures Validate(ResetPatch()(b)).None? {
      MasterValidates(ResetPatch()(b));
    }
    forall name | name in table ensures Merge(table[name], ResetPatch()(table[name])) == DefaultBook(name, name == "NIFTY") {
      KnownPatches(table[name], name == "NIFTY");
    }
  }

  /** When a settings save throws. */
  predicate SettingsRefused(table: Table, p: Patch) {
    || Validate(p).Some?
    || (if p.instrument.Some? then NormalizeChaseUnderlying(p.instrument.value).value !in table
        else p.instruments.Some? && !(forall name :: name in NormalizeInstruments(p.instruments.value) ==> name in table))
  }

  /** The failed check, the unknown book, or exactly the picked names that have no book. */
  ghost predicate WhyRefused(table: Table, p: Patch, e: SettingsError) {
    if Validate(p).Some? then e == Validate(p).value
    else if p.instrument.Some? then e == UnknownBook
    else e.Missing? && p.instruments.Some?
         && forall name :: name in e.names <==> name in NormalizeInstruments(p.instruments.value) && name !in table
  }

  /** What a settings save leaves: one book, the picked set, or the books that are on. */
  function SettingsSaved(table: Table, p: Patch): Table
    requires !SettingsRefused(table, p)
  {
    if p.instrument.Some? then
      var name := NormalizeChaseUnderlying(p.instrument.value).value;
      table[name := Merge(table[name], p)]
    else if p.instruments.Some? then SavedWhere(table, table.Keys, PickPatch(p, NormalizeInstruments(p.instruments.value)))
    else SavedWhere(table, EnabledNames(table), _ => p)
  }

  /** Which books a save reaches: the named one, every book when a set is picked, else the books that are on; no other changes. */
  lemma SavedBooksExactly(table: Table, p: Patch, name: string)
    requires Keyed(table) && !SettingsRefused(table, p) && name in table
    ensures SettingsSaved(table, p).Keys == table.Keys
    ensures p.instrument.Some? ==>
      SettingsSaved(table, p)[name] == if Some(name) == NormalizeChaseUnderlying(p.instrument.value) then Merge(table[name], p) else table[name]
    ensures p.instrument.None? && p.instruments.None? ==>
      SettingsSaved(table, p)[name] == if table[name].enabled then Merge(table[name], p) else table[name]
    ensures p.instrument.None? && p.instruments.Some? ==>
      (SettingsSaved(table, p)[name].enabled <==> name in NormalizeInstruments(p.instruments.value))
  {
  }

  lemma ListedFromRows(table: Table, rows: seq<Book>, books: seq<Book>)
    requires InOrder(books) && multiset(books) == multiset(rows) && Keyed(table)
    requires forall i :: 0 <= i < |rows| ==> rows[i].instrument in table && rows[i] == ToBook(table[rows[i].instrument])
    requires forall name :: name in table ==> exists b :: b in rows && b.instrument == name
    ensures IsListing(table, books)
  {
    forall i | 0 <= i < |books| ensures books[i] in rows {
      assert books[i] in multiset(books);
    }
    forall name | name in table ensures exists i :: 0 <= i < |books| && books[i].instrument == name {
      var b :| b in rows && b.instrument == name;
      assert b in multiset(books);
      var i :| 0 <= i < |books| && books[i] == b;
    }
  }

  // ---- the store ----

  datatype Cache = Cache(at: int, books: seq<Book>)

  /** `Date.now()`. */
  method Now() returns (now: int)
  {
    now := *;
  }

  class Store {
    var table: Table
    var cache: Option<Cache>

    /** Rows are keyed, clamped and upper-case, and a cache that is not null is the ordered table. */
    ghost predicate Valid()
      reads this
    {
      && Keyed(table)
      && (forall name :: name in table ==> Clamped(table[name]) && name != "" && Upper(name) == name)
      && (cache.Some? ==> IsListing(table, cache.value.books))
    }

    constructor (rows: Table)
      requires Keyed(rows) && forall name :: name in rows ==> Clamped(rows[name]) && name != "" && Upper(name) == name
      ensures Valid() && table == rows
    {
      table, cache := rows, None;
    }

    /** All rows, in whatever order the database yields them. */
    method Select() returns (rows: seq<Book>)
      requires Valid()
      ensures Distinct(rows)
      ensures forall i :: 0 <= i < |rows| ==> rows[i].instrument in table && rows[i] == table[rows[i].instrument]
      ensures forall name :: name in table ==> table[name] in rows
    {
      rows := [];
      var left := table.Keys;
      while left != {}
        invariant left <= table.Keys && Distinct(rows)
        invariant forall i :: 0 <= i < |rows| ==>
                    rows[i].instrument in table && rows[i] == table[rows[i].instrument] && rows[i].instrument !in left
        invariant forall name :: name in table && name !in left ==> table[name] in rows
        decreases |left|
      {
        var name :| name in left;
        var longer := rows + [table[name]];
        assert table[name] in longer;
        assert forall row :: row in rows ==> row in longer;
        rows, left := longer, left - {name};
      }
    }

    method ListChaseBooks() returns (books: seq<Book>)
      requires Valid()
      modifies `cache
      ensures Valid() && IsListing(table, books)
    {
      var now := Now();
      if cache.Some? && now - cache.value.at < CACHE_MS {
        return cache.value.books;
      }
      var rows := Select();
      var read := [];
      for i := 0 to |rows|
        invariant read == rows[..i]
      {
        StoredReadsBack(rows[i]);
        read := read + [ToBook(rows[i])];
      }
      assert read == rows;
      assert forall name :: name in table ==> table[name] in rows && table[name].instrument == name;
      books := OrderBooks(read);
      ListedFromRows(table, rows, books);
      var at := Now();
      cache := Some(Cache(at, books));
    }

    method GetChaseBook(instrument: string) returns (b: Book)
      requires Valid()
      modifies `cache
      ensures Valid() && b == CurrentOf(table, Upper(if instrument == "" then "NIFTY" else instrument))
      ensures Clamped(b)
    {
      var index := Upper(if instrument == "" then "NIFTY" else instrument);
      var books := ListChaseBooks();
      var found := FirstNamed(books, index);
      DefaultIsClamped(index, false);
      if found.Some? {
        StoredReadsBack(table[index]);
        return found.value;
      }
      return DefaultBook(index, false);
    }

    method UpsertBook(next: Book)
      modifies `table
      ensures table == old(table)[next.instrument := next]
    {
      table := table[next.instrument := next];
    }

    /** A refused patch changes nothing; an accepted one is merged into the row, which is added when missing. */
    method SaveChaseBook(instrument: string, p: Patch) returns (r: Result<Book>)
      requires Valid()
      modifies this
      ensures Valid()
      ensures Validate(p).Some? ==> r == Err(Validate(p).value) && table == old(table)
      ensures Validate(p).None? ==>
        var name := Upper(if instrument == "" then "NIFTY" else instrument);
        r == Ok(Merge(CurrentOf(old(table), name), p)) && table == old(table)[name := r.value] && cache.None?
    {
      if Validate(p).Some? {
        return Err(Validate(p).value);
      }
      var current := GetChaseBook(instrument);
      var next := Merge(current, p);
      MergeKeepsClamps(current, p);
      UpperIsStable(if instrument == "" then "NIFTY" else instrument);
      UpsertBook(next);
      cache := None;
      return Ok(next);
    }

    /** The save loops: one save per listed book, each with its own patch. */
    method SaveEach(books: seq<Book>, patchOf: Book -> Patch)
      requires Valid() && InOrder(books)
      requires forall i :: 0 <= i < |books| ==> books[i].instrument in table && books[i] == table[books[i].instrument]
      requires forall i :: 0 <= i < |books| ==> Validate(patchOf(books[i])).None?
      modifies this
      ensures Valid() && table == SavedWhere(old(table), NamesIn(books), patchOf)
    {
      ghost var before := table;
      assert table == SavedWhere(before, NamesIn(books[..0]), patchOf);
      for i := 0 to |books|
        invariant Valid() && table == SavedWhere(before, NamesIn(books[..i]), patchOf)
      {
        var name := books[i].instrument;
        NamesOfOneMore(books, i);
        SavedOneMore(before, NamesIn(books[..i]), patchOf, name);
        StoredReadsBack(table[name]);
        var _ := SaveChaseBook(name, patchOf(books[i]));
      }
      assert books[..|books|] == books;
    }

    method GetChaseSettings() returns (c: Config)
      requires Valid()
      modifies `cache
      ensures Valid() && exists books :: IsListing(table, books) && c == AggregateChaseConfig(books)
    {
      var books := ListChaseBooks();
      c := AggregateChaseConfig(books);
    }

    method SaveChaseSettings(p: Patch) returns (r: Result<Config>)
      requires Valid()
      modifies this
      ensures Valid()
      ensures r.Err? <==> SettingsRefused(old(table), p)
      ensures r.Err? ==> WhyRefused(old(table), p, r.error)
      ensures table == if r.Err? then old(table) else SettingsSaved(old(table), p)
      ensures r.Ok? ==> exists books :: IsListing(table, books) && r.value == AggregateChaseConfig(books)
    {
      if Validate(p).Some? {
        return Err(Validate(p).value);
      }
      var books := ListChaseBooks();
      TableReadsBack();
      if p.instrument.Some? {
        var name := NormalizeChaseUnderlying(p.instrument.value).value;
        NormalizedIsStable(p.instrument.value);
        if !(exists b :: b in books && b.instrument == name) {
          return Err(UnknownBook);
        }
        var _ := SaveChaseBook(name, p);
      } else if p.instruments.Some? {
        var missing := SavePicked(books, p);
        if |missing| > 0 {
          return Err(Missing(missing));
        }
      } else {
        SaveEnabled(books, p);
      }
      var config := GetChaseSettings();
      return Ok(config);
    }

    /** Names the picked books that do not exist, or saves every book on or off. */
    method SavePicked(books: seq<Book>, p: Patch) returns (missing: seq<string>)
      requires Valid() && IsListing(table, books) && Validate(p).None? && p.instruments.Some?
      modifies this
      ensures Valid()
      ensures var wanted := NormalizeInstruments(p.instruments.value);
        && (|missing| == 0 <==> forall name :: name in wanted ==> name in old(table))
        && (forall name :: name in missing <==> name in wanted && name !in old(table))
        && table == if |missing| > 0 then old(table) else SavedWhere(old(table), old(table).Keys, PickPatch(p, wanted))
    {
      var wanted := NormalizeInstruments(p.instruments.value);
      ListedNames(table, books);
      missing := MissingFrom(wanted, NamesIn(books));
      if |missing| > 0 {
        assert missing[0] in missing;
        return;
      }
      TableReadsBack();
      forall i | 0 <= i < |books| ensures Validate(PickPatch(p, wanted)(books[i])).None? {
        PickValidates(p, wanted, books[i]);
      }
      SaveEach(books, PickPatch(p, wanted));
    }

    /** The last loop of a settings save. */
    method SaveEnabled(books: seq<Book>, p: Patch)
      requires Valid() && IsListing(table, books) && Validate(p).None?
      modifies this
      ensures Valid() && table == SavedWhere(old(table), EnabledNames(old(table)), _ => p)
    {
      var on := EnabledIn(books);
      TableReadsBack();
      EnabledInOrder(books);
      assert NamesIn(on) == EnabledNames(table);
      SaveEach(on, _ => p);
    }

    method ResetChaseBooks() returns (c: Config)
      requires Valid()
      modifies this
      ensures Valid() && table == Defaults(old(table))
    {
      var books := ListChaseBooks();
      TableReadsBack();
      ListedNames(table, books);
      ResetMakesDefaults(table);
      SaveEach(books, ResetPatch());
      c := GetChaseSettings();
    }

    method AddChaseUnderlying(instrument: string) returns (r: Result<Book>)
      requires Valid()
      modifies this
      ensures Valid()
      ensures NormalizeChaseUnderlying(instrument).None? ==> r == Err(BadName) && table == old(table)
      ensures NormalizeChaseUnderlying(instrument).Some? ==>
        var name := NormalizeChaseUnderlying(instrument).value;
        r == Ok(CurrentOf(old(table), name)) && table == if name in old(table) then old(table) else old(table)[name := r.value]
    {
      var n := NormalizeChaseUnderlying(instrument);
      if n.None? {
        return Err(BadName);
      }
      var name := n.value;
      var books := ListChaseBooks();
      var existing := FirstNamed(books, name);
      if existing.Some? {
        return Ok(existing.value);
      }
      var book := DefaultBook(name, false);
      NormalizedIsStable(instrument);
      DefaultIsClamped(name, false);
      UpsertBook(book);
      cache := None;
      return Ok(book);
    }

    /** Only a known book that is waiting for a signal and holds nothing can be removed. */
    method RemoveChaseUnderlying(instrument: string, status: Option<Status>, netQty: int) returns (r: Result<bool>)
      requires Valid()
      modifies this
      ensures Valid()
      ensures var n := NormalizeChaseUnderlying(instrument);
        && (r.Ok? <==> n.Some? && (status.None? || status.value == AWAITING_SIGNAL) && netQty == 0 && n.value in old(table))
        && table == if r.Ok? then old(table) - {n.value} else old(table)
    {
      var n := NormalizeChaseUnderlying(instrument);
      if n.None? {
        return Err(BadName);
      }
      if status.Some? && status.value in {LONG, SHORT, AWAITING_LONG, AWAITING_SHORT} {
        return Err(Blocked("This book is open or waiting on an entry."));
      }
      if netQty != 0 {
        return Err(Blocked("This book still has quantity."));
      }
      var books := ListChaseBooks();
      var existing := FirstNamed(books, n.value);
      if existing.None? {
        return Err(UnknownBook);
      }
      table := table - {n.value};
      cache := None;
      return Ok(true);
    }

    method PauseAllChaseBooks()
      requires Valid()
      modifies this
      ensures Valid() && table == map name | name in old(table) :: old(table)[name].(paused := true)
    {
      var books := ListChaseBooks();
      TableReadsBack();
      ListedNames(table, books);
      MasterValidates(PAUSE);
      forall name | name in table ensures Merge(table[name], PAUSE) == table[name].(paused := true) {
        KnownPatches(table[name], true);
      }
      SaveEach(books, _ => PAUSE);
    }

    lemma TableReadsBack()
      requires Valid()
      ensures forall name :: name in table ==> ToBook(table[name]) == table[name]
    {
      forall name | name in table ensures ToBook(table[name]) == table[name] {
        StoredReadsBack(table[name]);
      }
    }
  }

  lemma ListedNames(table: Table, books: seq<Book>)
    requires IsListing(table, books)
    ensures NamesIn(books) == table.Keys
  {
  }

  lemma UpperIsStable(s: string)
    ensures Upper(Upper(s)) == Upper(s)
  {
  }
}
