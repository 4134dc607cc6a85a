/** Names of Chase underlyings and of their futures (lib/chaseUniverse.ts). */
module ChaseUniverse {
  import opened Options
  import opened Text

  const MONTHS := ["JAN", "FEB", "MAR", "APR", "MAY", "JUN", "JUL", "AUG", "SEP", "OCT", "NOV", "DEC"]

  predicate Letter(c: char) { 'A' <= c <= 'Z' }

  predicate Digit(c: char) { '0' <= c <= '9' }

  /** A letter followed by at most nineteen letters and digits. */
  predicate NameShape(s: string) {
    && 1 <= |s| <= 20 && Letter(s[0])
    && forall i :: 0 <= i < |s| ==> Letter(s[i]) || Digit(s[i])
  }

  /** Two digits, a month and FUT, as in 26OCTFUT. */
  predicate ExpirySuffix(s: string) {
    |s| == 8 && Digit(s[0]) && Digit(s[1]) && s[2..5] in MONTHS && s[5..] == "FUT"
  }

  predicate FutureShape(s: string) {
    |s| > 8 && NameShape(s[..|s| - 8]) && ExpirySuffix(s[|s| - 8..])
  }

  function NormalizeChaseUnderlying(raw: string): Option<string> {
    var name := Upper(Trim(raw));
    if !NameShape(name) || FutureShape(name) then None else Some(name)
  }

  function ChaseUnderlyingFromSymbol(symbol: string): Option<string> {
    var upper := Upper(Trim(symbol));
    if FutureShape(upper) then Some(upper[..|upper| - 8]) else None
  }

  lemma NameIsOwnUpper(s: string)
    requires forall i :: 0 <= i < |s| ==> Letter(s[i]) || Digit(s[i])
    ensures Upper(Trim(s)) == s
  {
    assert Trimmed(s);
    assert Upper(s) == s;
  }

  /** A normalised name is stable, and is never itself a futures symbol. */
  lemma NormalizedIsStable(raw: string)
    requires NormalizeChaseUnderlying(raw).Some?
    ensures var name := NormalizeChaseUnderlying(raw).value;
      && NormalizeChaseUnderlying(name) == Some(name) && Upper(name) == name
      && ChaseUnderlyingFromSymbol(name) == None
  {
    var name := NormalizeChaseUnderlying(raw).value;
    NameIsOwnUpper(name);
    assert Upper(name) == name;
  }

  lemma ExpiryIsPlain(suffix: string)
    requires ExpirySuffix(suffix)
    ensures forall i :: 0 <= i < |suffix| ==> Letter(suffix[i]) || Digit(suffix[i])
  {
    var k :| 0 <= k < |MONTHS| && suffix[2..5] == MONTHS[k];
    forall i | 0 <= i < |suffix| ensures Letter(suffix[i]) || Digit(suffix[i]) {
      if 2 <= i < 5 { assert suffix[i] == MONTHS[k][i - 2]; }
      if 5 <= i { assert suffix[i] == "FUT"[i - 5]; }
    }
  }

  /** Every future of an underlying names that underlying and no other. */
  lemma UnderlyingRoundTrips(name: string, suffix: string)
    requires NameShape(name) && ExpirySuffix(suffix)
    ensures ChaseUnderlyingFromSymbol(name + suffix) == Some(name)
  {
    var symbol := name + suffix;
    ExpiryIsPlain(suffix);
    NameIsOwnUpper(symbol);
    assert symbol[..|symbol| - 8] == name && symbol[|symbol| - 8..] == suffix;
  }

  /** The coarser rule of lib/trading/bookSplit.ts: the first of four indices that starts the symbol. */
  function ChaseInstrumentFromTradingsymbol(symbol: string): Option<string> {
    var s := Upper(symbol);
    if "BANKNIFTY" <= s then Some("BANKNIFTY")
    else if "FINNIFTY" <= s then Some("FINNIFTY")
    else if "MIDCPNIFTY" <= s then Some("MIDCPNIFTY")
    else if "NIFTY" <= s then Some("NIFTY")
    else None
  }

  /**
   * On the futures of an underlying the two rules agree exactly for the four indices;
   * for a share the coarse rule is silent, or guesses an index whose name starts it.
   */
  lemma RulesAgreeOnIndices(name: string, suffix: string)
    requires NameShape(name) && ExpirySuffix(suffix)
    ensures ChaseInstrumentFromTradingsymbol(name + suffix) == Some(name)
       <==> name in ["NIFTY", "BANKNIFTY", "FINNIFTY", "MIDCPNIFTY"]
  {
    var symbol := name + suffix;
    ExpiryIsPlain(suffix);
    assert Upper(symbol) == symbol;
    if name in ["NIFTY", "BANKNIFTY", "FINNIFTY", "MIDCPNIFTY"] {
      assert symbol[..|name|] == name;
      assert name <= symbol;
    }
  }

  /** It does guess: the futures of NIFTYNXT50 read as NIFTY's. */
  lemma CoarseRuleGuesses()
    ensures ChaseUnderlyingFromSymbol("NIFTYNXT5026OCTFUT") == Some("NIFTYNXT50")
    ensures ChaseInstrumentFromTradingsymbol("NIFTYNXT5026OCTFUT") == Some("NIFTY")
  {
    var name, suffix := "NIFTYNXT50", "26OCTFUT";
    assert suffix[2..5] == MONTHS[9];
    UnderlyingRoundTrips(name, suffix);
    assert name + suffix == "NIFTYNXT5026OCTFUT";
    var symbol := name + suffix;
    assert Upper(symbol) == symbol;
    assert symbol[..5] == "NIFTY";
    assert symbol[0] == 'N';
  }
}
