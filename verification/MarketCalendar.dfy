/** The trading calendar of lib/marketCalendar.ts. Times are milliseconds of IST, day 0 being 1970-01-01. */
module MarketCalendar {
  import opened Options

  const MINUTE: int := 60_000
  const DAY: int := 86_400_000

  function DayOf(t: int): int { t / DAY }

  function StartOf(day: int): int { day * DAY }

  /** 0 is Sunday; 1970-01-01 was a Thursday. */
  function Weekday(day: int): int { (day + 4) % 7 }

  predicate Weekend(day: int) { Weekday(day) == 0 || Weekday(day) == 6 }

  /**
   * Listed plus extra holidays, forced-closed dates, the session's offsets from midnight,
   * and early closes. `firstHoliday` is some day no listed holiday precedes.
   */
  datatype Calendar = Calendar(holidays: set<int>, closedDates: set<int>, open: int, close: int,
                               earlyClose: map<int, int>, firstHoliday: int)
  {
    ghost predicate Valid() {
      && 0 <= open < DAY && 0 <= close < DAY
      && forall h :: h in holidays ==> firstHoliday <= h
    }
  }

  predicate NonTrading(c: Calendar, day: int) { Weekend(day) || day in c.holidays }

  predicate HasSession(c: Calendar, day: int) { !NonTrading(c, day) && day !in c.closedDates }

  datatype Bounds = Bounds(open: int, close: int)

  function SessionBounds(c: Calendar, t: int): Option<Bounds> {
    var day := DayOf(t);
    if !HasSession(c, day) then None
    else Some(Bounds(StartOf(day) + c.open, StartOf(day) + (if day in c.earlyClose then c.earlyClose[day] else c.close)))
  }

  /** Exclusive at both ends. */
  predicate IsSessionOpen(c: Calendar, t: int) {
    match SessionBounds(c, t)
    case None => false
    case Some(b) => b.open < t < b.close
  }

  datatype SessionState = CLOSED | PRE_MARKET | OPEN | POST_MARKET | HALTED | SUSPENDED | WEEKEND | HOLIDAY | OVERNIGHT

  function MarketSessionState(c: Calendar, t: int, forced: Option<SessionState>): SessionState {
    var day := DayOf(t);
    if forced.Some? then forced.value
    else if Weekend(day) then WEEKEND
    else if day in c.holidays || day in c.closedDates then HOLIDAY
    else match SessionBounds(c, t)
      case None => CLOSED
      case Some(b) =>
        var preOpen, postClose := b.open - 15 * MINUTE, b.close + 30 * MINUTE;
        if t > b.open && t < b.close then OPEN
        else if !(t < preOpen) && !(t > b.open) then PRE_MARKET
        else if !(t < b.close) && t < postClose then POST_MARKET
        else if t > postClose || t - StartOf(day) < 6 * 60 * MINUTE then OVERNIGHT
        else CLOSED
  }

  /** Unless forced, the state is OPEN exactly when the session predicate holds. */
  lemma StateOpenIsSessionOpen(c: Calendar, t: int)
    ensures MarketSessionState(c, t, None) == OPEN <==> IsSessionOpen(c, t)
    ensures MarketSessionState(c, t, None) in {WEEKEND, HOLIDAY} <==> SessionBounds(c, t).None?
  {
  }

  /**
   * A trading day by the clock: a quarter of an hour before the open, the session, half an hour after the close,
   * then overnight until six in the morning; the instant half an hour after the close is itself closed.
   */
  lemma StatesOfTradingDay(c: Calendar, t: int)
    requires SessionBounds(c, t).Some? && SessionBounds(c, t).value.open < SessionBounds(c, t).value.close
    ensures var b, state := SessionBounds(c, t).value, MarketSessionState(c, t, None);
      && (state == PRE_MARKET <==> b.open - 900_000 <= t <= b.open)
      && (state == POST_MARKET <==> b.close <= t < b.close + 1_800_000)
      && (state == OVERNIGHT <==>
            || b.close + 1_800_000 < t
            || (t < StartOf(DayOf(t)) + 21_600_000 && (t < b.open - 900_000 || t == b.close + 1_800_000)))
      && (state == CLOSED <==>
            t >= StartOf(DayOf(t)) + 21_600_000 && (t < b.open - 900_000 || t == b.close + 1_800_000))
  {
  }

  // ---- the next session open ----

  /** `o` is the opening instant of some session. */
  predicate OpensAt(c: Calendar, o: int) {
    HasSession(c, DayOf(o)) && o == StartOf(DayOf(o)) + c.open
  }

  ghost predicate LeastOpenFrom(c: Calendar, from: int, o: int) {
    OpensAt(c, o) && from <= o && forall p :: OpensAt(c, p) && from <= p ==> o <= p
  }

  ghost predicate NoOpenWithin(c: Calendar, from: int, days: int) {
    forall p :: OpensAt(c, p) && from <= p ==> DayOf(p) >= DayOf(from) + days
  }

  method NextSessionOpen(c: Calendar, from: int, maxDays: nat) returns (r: Option<int>)
    requires c.Valid()
    ensures r.Some? ==> LeastOpenFrom(c, from, r.value) && DayOf(r.value) < DayOf(from) + maxDays
    ensures r.None? ==> NoOpenWithin(c, from, maxDays)
  {
    var cursor := from;
    for i := 0 to maxDays
      invariant DayOf(cursor) == DayOf(from) + i
      invariant cursor == if i == 0 then from else StartOf(DayOf(from) + i)
      invariant forall p :: OpensAt(c, p) && from <= p ==> cursor <= p
    {
      var bounds := SessionBounds(c, cursor);
      if bounds.Some? && cursor <= bounds.value.open {
        NoEarlierOpen(c, cursor, bounds.value.open);
        return Some(bounds.value.open);
      }
      forall p | OpensAt(c, p) && from <= p ensures StartOf(DayOf(cursor) + 1) <= p {
        NotThisDay(c, cursor, p);
      }
      cursor := StartOf(DayOf(cursor) + 1);
    }
    return None;
  }

  lemma NoEarlierOpen(c: Calendar, cursor: int, open: int)
    requires c.Valid() && SessionBounds(c, cursor).Some? && SessionBounds(c, cursor).value.open == open >= cursor
    ensures OpensAt(c, open) && DayOf(open) == DayOf(cursor)
    ensures forall p :: OpensAt(c, p) && cursor <= p ==> open <= p
  {
    forall p | OpensAt(c, p) && cursor <= p ensures open <= p {
      assert DayOf(cursor) <= DayOf(p);
    }
  }

  lemma NotThisDay(c: Calendar, cursor: int, p: int)
    requires c.Valid() && OpensAt(c, p) && cursor <= p
    requires SessionBounds(c, cursor).None? || cursor > SessionBounds(c, cursor).value.open
    ensures StartOf(DayOf(cursor) + 1) <= p
  {
    if DayOf(p) == DayOf(cursor) {
      assert false;
    }
  }

  // ---- the previous trading day ----

  function Back(from: int): int {
    from - (if Weekday(from) == 1 then 3 else 1)
  }

  /** `getLastOpenDateSince`: step back over weekends and listed holidays. */
  function LastOpenDateSince(c: Calendar, from: int): int
    requires c.Valid()
    decreases if from > c.firstHoliday then from - c.firstHoliday else 0, if Weekday(from) == 0 then 1 else 0
  {
    var yesterday := Back(from);
    if NonTrading(c, yesterday) then LastOpenDateSince(c, yesterday) else yesterday
  }

  /** It finds the last trading day strictly before `from`. */
  lemma {:induction false} LastOpenIsGreatest(c: Calendar, from: int)
    requires c.Valid()
    ensures var r := LastOpenDateSince(c, from);
      r < from && !NonTrading(c, r) && forall d :: r < d < from ==> NonTrading(c, d)
    decreases if from > c.firstHoliday then from - c.firstHoliday else 0, if Weekday(from) == 0 then 1 else 0
  {
    var yesterday := Back(from);
    BackSkipsWeekend(c, from);
    if NonTrading(c, yesterday) {
      LastOpenIsGreatest(c, yesterday);
    }
  }

  lemma BackSkipsWeekend(c: Calendar, from: int)
    requires c.Valid()
    ensures Back(from) < from && forall d :: Back(from) < d < from ==> NonTrading(c, d)
  {
  }

  /** From the trading day that follows d it comes back to d. */
  lemma LastOpenInvertsNext(c: Calendar, d: int, next: int)
    requires c.Valid() && !NonTrading(c, d)
    requires d < next && forall x :: d < x < next ==> NonTrading(c, x)
    ensures LastOpenDateSince(c, next) == d
  {
    LastOpenIsGreatest(c, next);
  }
}
