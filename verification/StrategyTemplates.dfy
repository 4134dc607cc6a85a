/**
 * Template names: the uniqueness rule of lib/strategyTemplateRules.ts and the search for
 * a free "copy" name in lib/strategyTemplates.ts. Letters are ASCII.
 */
module StrategyTemplates {
  import opened Options
  import opened Text

  /** Some existing name equals `name` up to case. */
  predicate Taken(existing: seq<string>, name: string) {
    exists i :: 0 <= i < |existing| && Lower(existing[i]) == Lower(name)
  }

  datatype NameError = Required | AlreadyExists

  function AssertUniqueTemplateName(name: string, existing: seq<string>, ignore: Option<string>): Option<NameError> {
    var trimmed := Trim(name);
    if trimmed == "" then Some(Required)
    else if exists i :: 0 <= i < |existing| && Some(existing[i]) != ignore && Lower(existing[i]) == Lower(trimmed)
    then Some(AlreadyExists)
    else None
  }

  // ---- the candidates ----

  function Decimal(n: nat): (r: string)
    ensures |r| > 0 && forall i :: 0 <= i < |r| ==> '0' <= r[i] <= '9'
  {
    var digit := ['0' + (n % 10) as char];
    if n < 10 then digit else Decimal(n / 10) + digit
  }

  lemma {:induction false} DecimalInjective(a: nat, b: nat)
    requires Decimal(a) == Decimal(b)
    ensures a == b
  {
    var x, y := Decimal(a), Decimal(b);
    assert x[|x| - 1] == '0' + (a % 10) as char && y[|y| - 1] == '0' + (b % 10) as char;
    assert a % 10 == b % 10;
    assert |x| > 1 <==> a >= 10;
    if a >= 10 {
      assert x[..|x| - 1] == Decimal(a / 10) && y[..|y| - 1] == Decimal(b / 10);
      DecimalInjective(a / 10, b / 10);
    }
  }

  /** Candidate 1 is "X copy"; candidate n is "X copy n". */
  function Candidate(base: string, n: nat): (r: string)
    requires n >= 1
    ensures |r| >= |base| + 5
  {
    if n == 1 then base + " copy" else base + " copy " + Decimal(n)
  }

  /** Different numbers give names that differ even up to case. */
  lemma CandidatesDiffer(base: string, m: nat, n: nat)
    requires 1 <= m < n
    ensures Lower(Candidate(base, m)) != Lower(Candidate(base, n))
  {
    var x, y := Candidate(base, m), Candidate(base, n);
    if |Decimal(m)| == |Decimal(n)| && m >= 2 {
      var i := DigitsDiffer(m, n);
      var k := |base| + 6 + i;
      assert x[k] == Decimal(m)[i] && y[k] == Decimal(n)[i];
      assert Lower(x)[k] != Lower(y)[k];
    }
  }

  lemma DigitsDiffer(m: nat, n: nat) returns (i: nat)
    requires m != n && |Decimal(m)| == |Decimal(n)|
    ensures i < |Decimal(m)| && Decimal(m)[i] != Decimal(n)[i]
  {
    if forall k :: 0 <= k < |Decimal(m)| ==> Decimal(m)[k] == Decimal(n)[k] {
      assert Decimal(m) == Decimal(n);
      DecimalInjective(m, n);
    }
    i :| 0 <= i < |Decimal(m)| && Decimal(m)[i] != Decimal(n)[i];
  }

  function LowerSet(names: seq<string>): set<string> {
    set i | 0 <= i < |names| :: Lower(names[i])
  }

  lemma {:induction false} LowerSetSize(names: seq<string>)
    ensures |LowerSet(names)| <= |names|
  {
    if |names| > 0 {
      var rest := names[..|names| - 1];
      LowerSetSize(rest);
      assert LowerSet(names) == LowerSet(rest) + {Lower(names[|names| - 1])};
    }
  }

  /** The first k candidates, up to case. */
  ghost function CandidateSet(base: string, k: nat): set<string> {
    set m | 1 <= m <= k :: Lower(Candidate(base, m))
  }

  lemma {:induction false} CandidateSetSize(base: string, k: nat)
    ensures |CandidateSet(base, k)| == k
  {
    if k > 0 {
      CandidateSetSize(base, k - 1);
      CandidateSetGrows(base, k);
    }
  }

  lemma CandidateSetGrows(base: string, k: nat)
    requires k > 0
    ensures CandidateSet(base, k) == CandidateSet(base, k - 1) + {Lower(Candidate(base, k))}
    ensures Lower(Candidate(base, k)) !in CandidateSet(base, k - 1)
  {
    forall m | 1 <= m < k ensures Lower(Candidate(base, m)) != Lower(Candidate(base, k)) {
      CandidatesDiffer(base, m, k);
    }
  }

  /** The first k candidates are all taken. */
  ghost predicate AllTaken(names: seq<string>, base: string, k: nat) {
    forall m :: 1 <= m <= k ==> Taken(names, Candidate(base, m))
  }

  lemma OneMoreTaken(names: seq<string>, base: string, k: nat)
    requires k >= 1 && AllTaken(names, base, k - 1) && Taken(names, Candidate(base, k))
    ensures AllTaken(names, base, k)
  {
  }

  /** At most as many candidates can be taken as there are names. */
  lemma TakenAtMost(base: string, names: seq<string>, k: nat)
    requires AllTaken(names, base, k)
    ensures k <= |names|
  {
    CandidateSetSize(base, k);
    LowerSetSize(names);
    assert CandidateSet(base, k) <= LowerSet(names);
    assert LowerSet(names) == CandidateSet(base, k) + (LowerSet(names) - CandidateSet(base, k));
  }

  /** The loop that looks for a free name; `name` is the first free candidate. */
  method DuplicateName(base: string, names: seq<string>) returns (name: string, ghost number: nat)
    ensures 1 <= number <= |names| + 1 && name == Candidate(base, number)
    ensures !Taken(names, name)
    ensures AllTaken(names, base, number - 1)
  {
    name := Candidate(base, 1);
    var n := 2;
    while Taken(names, name)
      invariant 2 <= n <= |names| + 2 && name == Candidate(base, n - 1)
      invariant AllTaken(names, base, n - 2)
      decreases |names| + 2 - n
    {
      OneMoreTaken(names, base, n - 1);
      TakenAtMost(base, names, n - 1);
      name := Candidate(base, n);
      n := n + 1;
    }
    number := n - 1;
  }

  lemma CandidateTrim(base: string, n: nat)
    requires n >= 1 && Trimmed(base)
    ensures Trim(Candidate(base, n)) == if base == "" then Candidate(base, n)[1..] else Candidate(base, n)
  {
    var c := Candidate(base, n);
    assert !Blank(c[|c| - 1]);
    if base == "" {
      assert c[0] == ' ' && c[1] == 'c';
      assert Trimmed(c[1..]);
    } else {
      assert c[0] == base[0];
    }
  }

  /**
   * When every stored name is trimmed, the name the search returns passes the uniqueness
   * check of the save, unless the copied template has an empty name: that candidate loses
   * its leading blank on saving and collides exactly with an existing "copy".
   */
  lemma DuplicateIsAccepted(base: string, names: seq<string>, number: nat)
    requires Trimmed(base) && forall i :: 0 <= i < |names| ==> Trimmed(names[i])
    requires number >= 1 && !Taken(names, Candidate(base, number))
    requires AllTaken(names, base, number - 1)
    ensures AssertUniqueTemplateName(Candidate(base, number), names, None).None?
       <==> base != "" || !Taken(names, "copy")
  {
    CandidateTrim(base, number);
    if base == "" {
      BlankNameIsFree(names);
      assert Candidate("", 1)[1..] == "copy";
    }
  }

  lemma BlankNameIsFree(names: seq<string>)
    requires forall i :: 0 <= i < |names| ==> Trimmed(names[i])
    ensures !Taken(names, Candidate("", 1))
  {
    assert Lower(Candidate("", 1))[0] == ' ';
    forall i | 0 <= i < |names| ensures Lower(names[i]) != Lower(Candidate("", 1)) {
      assert |names[i]| > 0 ==> Lower(names[i])[0] == LowerChar(names[i][0]) != ' ';
    }
  }

  /** The refusal does happen: copying a template named "" beside one named "Copy". */
  lemma EmptyNameCollides()
    ensures AssertUniqueTemplateName(Candidate("", 1), ["", "Copy"], None) == Some(AlreadyExists)
    ensures !Taken(["", "Copy"], Candidate("", 1))
  {
    var names := ["", "Copy"];
    BlankNameIsFree(names);
    CandidateTrim("", 1);
    assert Trim(Candidate("", 1)) == "copy";
    assert Lower(names[1]) == Lower("copy");
    assert Some(names[1]) != None;
  }
}
