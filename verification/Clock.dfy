/** The simulation clock of lib/clock.ts. */
module Clock {
  import opened Options
  import opened MarketCalendar

  const SEARCH_DAYS: nat := 21

  /** The jumps use the default session and no overrides, so an open is well past midnight. */
  ghost predicate Simulated(c: Calendar) {
    c.Valid() && c.closedDates == {} && c.earlyClose == map[] && c.open >= MINUTE
  }

  class SimClock {
    var t: int
    var paused: bool

    constructor (at: int)
      ensures t == at && !paused
    {
      t, paused := at, false;
    }

    method Set(at: int)
      modifies this
      ensures t == at && paused == old(paused)
    {
      t := at;
    }

    method Add(amountMs: int)
      modifies this
      ensures t == (if old(paused) then old(t) else old(t) + amountMs) && paused == old(paused)
    {
      if paused {
        return;
      }
      t := t + amountMs;
    }

    method Pause()
      modifies this
      ensures paused && t == old(t)
    {
      paused := true;
    }

    method Resume()
      modifies this
      ensures !paused && t == old(t)
    {
      paused := false;
    }

    /** The first open at or after now. */
    method JumpToMarketOpen(c: Calendar) returns (ok: bool)
      requires Simulated(c)
      modifies this
      ensures paused == old(paused)
      ensures ok ==> LeastOpenFrom(c, old(t), t)
      ensures !ok ==> t == old(t) && NoOpenWithin(c, t, SEARCH_DAYS)
    {
      var bounds := SessionBounds(c, t);
      if bounds.Some? && t < bounds.value.open {
        NoEarlierOpen(c, t, bounds.value.open);
        t := bounds.value.open;
        return true;
      }
      var next := NextSessionOpen(c, t, SEARCH_DAYS);
      if next.None? {
        return false;
      }
      t := next.value;
      return true;
    }

    /** Today's close, even when it has passed: the clock then runs backwards. */
    method JumpToMarketClose(c: Calendar) returns (ok: bool)
      requires Simulated(c)
      modifies this
      ensures paused == old(paused)
      ensures HasSession(c, DayOf(old(t))) ==> ok && t == StartOf(DayOf(old(t))) + c.close
      ensures ok && !HasSession(c, DayOf(old(t))) ==>
        exists o :: LeastOpenFrom(c, old(t), o) && t == StartOf(DayOf(o)) + c.close
      ensures t < old(t) <==> HasSession(c, DayOf(old(t))) && old(t) > StartOf(DayOf(old(t))) + c.close
      ensures !ok ==> t == old(t)
    {
      var bounds := SessionBounds(c, t);
      if bounds.Some? {
        t := bounds.value.close;
        return true;
      }
      var next := NextSessionOpen(c, t, SEARCH_DAYS);
      if next.None? {
        return false;
      }
      var nextBounds := SessionBounds(c, next.value);
      assert DayOf(t) < DayOf(next.value);
      if nextBounds.Some? {
        t := nextBounds.value.close;
      }
      return true;
    }

    /** The first open strictly after now. */
    method JumpToNextSession(c: Calendar) returns (ok: bool)
      requires Simulated(c)
      modifies this
      ensures paused == old(paused)
      ensures ok ==> LeastOpenFrom(c, old(t) + 1, t)
      ensures !ok ==> t == old(t) && NoOpenWithin(c, t + MINUTE, SEARCH_DAYS)
    {
      var bounds := SessionBounds(c, t);
      if bounds.Some? && t < bounds.value.open {
        NoEarlierOpen(c, t, bounds.value.open);
        t := bounds.value.open;
        return true;
      }
      forall p | OpensAt(c, p) && t + 1 <= p ensures t + MINUTE <= p {
        NoOpenInTheNextMinute(c, t, p);
      }
      var next := NextSessionOpen(c, t + MINUTE, SEARCH_DAYS);
      if next.None? {
        return false;
      }
      t := next.value;
      return true;
    }

    /** The first open on a later day. */
    method JumpToNextTradingDay(c: Calendar) returns (ok: bool)
      requires Simulated(c)
      modifies this
      ensures paused == old(paused)
      ensures ok ==> LeastOpenFrom(c, StartOf(DayOf(old(t)) + 1), t)
      ensures !ok ==> t == old(t) && NoOpenWithin(c, StartOf(DayOf(t) + 1), SEARCH_DAYS)
    {
      var next := NextSessionOpen(c, StartOf(DayOf(t) + 1), SEARCH_DAYS);
      if next.None? {
        return false;
      }
      t := next.value;
      return true;
    }
  }

  lemma NoOpenInTheNextMinute(c: Calendar, t: int, p: int)
    requires Simulated(c) && OpensAt(c, p) && t < p
    requires SessionBounds(c, t).None? || t >= SessionBounds(c, t).value.open
    ensures t + MINUTE <= p
  {
    if DayOf(p) == DayOf(t) {
      assert false;
    }
    assert StartOf(DayOf(p)) >= StartOf(DayOf(t) + 1) > t;
  }

  function Latest(start: int, times: seq<int>): int {
    if |times| == 0 then start else times[|times| - 1]
  }

  /** `times` are the clock readings of successive successful jumps to the next session. */
  ghost predicate Jumps(c: Calendar, start: int, times: seq<int>) {
    |times| > 0 ==>
      var before := times[..|times| - 1];
      Jumps(c, start, before) && LeastOpenFrom(c, Latest(start, before) + 1, times[|times| - 1])
  }

  /** `times` are the session opens after `start` up to the last one, in order. */
  ghost predicate Enumerates(c: Calendar, start: int, times: seq<int>) {
    && start <= Latest(start, times)
    && (forall i, j :: 0 <= i < j < |times| ==> times[i] < times[j])
    && (forall o :: o in times <==> OpensAt(c, o) && start < o <= Latest(start, times))
  }

  /** Jumping again and again visits exactly the session opens up to the last one, in order. */
  lemma {:induction false} JumpsEnumerateOpens(c: Calendar, start: int, times: seq<int>)
    requires Jumps(c, start, times)
    ensures Enumerates(c, start, times)
  {
    if |times| > 0 {
      var before, next := times[..|times| - 1], times[|times| - 1];
      JumpsEnumerateOpens(c, start, before);
      OneMoreOpen(c, start, before, next);
      assert times == before + [next];
    }
  }

  lemma OneMoreOpen(c: Calendar, start: int, before: seq<int>, next: int)
    requires Enumerates(c, start, before) && LeastOpenFrom(c, Latest(start, before) + 1, next)
    ensures Enumerates(c, start, before + [next])
  {
    forall i | 0 <= i < |before| ensures before[i] < next {
      assert before[i] in before;
    }
  }
}
