/** The session-date arithmetic of scripts/verify_rust_core_migration.py. A date is its proleptic Gregorian
    ordinal; day 1 was a Monday. */
module BusinessSessions {

  /** Monday is 0 and Sunday is 6. */
  function Weekday(date: int): int { (date + 6) % 7 }

  /** The first of January 2024, ordinal 738886, was a Monday, and weekdays follow on. */
  lemma WeekdayAnchor(date: int)
    ensures Weekday(738886) == 0 && 0 <= Weekday(date) <= 6
    ensures Weekday(date + 1) == if Weekday(date) == 6 then 0 else Weekday(date) + 1
  {
  }

  predicate IsBusinessDay(date: int) { Weekday(date) < 5 }

  /** Business days later than `first` and not later than `last`. */
  ghost function BusinessDaysAfter(first: int, last: int): nat
    requires first <= last
    decreases last - first
  {
    if first == last then 0 else BusinessDaysAfter(first, last - 1) + (if IsBusinessDay(last) then 1 else 0)
  }

  /** Business days not earlier than `first` and earlier than `last`. */
  ghost function BusinessDaysBefore(first: int, last: int): nat
    requires first <= last
    decreases last - first
  {
    if first == last then 0 else BusinessDaysBefore(first + 1, last) + (if IsBusinessDay(first) then 1 else 0)
  }

  // ---------------------------------------------------------------- business days are numbered

  /** The number of the last business day not later than `date`. */
  ghost function LastNumber(date: int): int {
    5 * ((date + 6) / 7) + (if IsBusinessDay(date) then Weekday(date) else 4)
  }

  /** The number of the first business day not earlier than `date`. */
  ghost function FirstNumber(date: int): int {
    5 * ((date + 6) / 7) + (if IsBusinessDay(date) then Weekday(date) else 5)
  }

  /** The business day with a given number. */
  ghost function Day(number: int): int { 7 * (number / 5) + number % 5 - 6 }

  lemma DayAndNumber(number: int)
    ensures IsBusinessDay(Day(number)) && LastNumber(Day(number)) == number && FirstNumber(Day(number)) == number
  {
    assert Day(number) + 6 == 7 * (number / 5) + number % 5;
  }

  lemma NumberAndDay(date: int)
    requires IsBusinessDay(date)
    ensures FirstNumber(date) == LastNumber(date) && Day(LastNumber(date)) == date
  {
    var week, weekday := (date + 6) / 7, Weekday(date);
    assert (5 * week + weekday) / 5 == week;
  }

  lemma WeekendNumbers(date: int)
    requires !IsBusinessDay(date)
    ensures FirstNumber(date) == LastNumber(date) + 1
  {
  }

  /** Going one day on numbers one more exactly when that day is a business day. */
  lemma NextDay(date: int)
    ensures LastNumber(date + 1) == LastNumber(date) + (if IsBusinessDay(date + 1) then 1 else 0)
    ensures FirstNumber(date + 1) == FirstNumber(date) + (if IsBusinessDay(date) then 1 else 0)
  {
  }

  lemma {:induction false} CountAfter(first: int, last: int)
    requires first <= last
    ensures BusinessDaysAfter(first, last) == LastNumber(last) - LastNumber(first)
    decreases last - first
  {
    if first < last {
      CountAfter(first, last - 1);
      NextDay(last - 1);
    }
  }

  lemma {:induction false} CountBefore(first: int, last: int)
    requires first <= last
    ensures BusinessDaysBefore(first, last) == FirstNumber(last) - FirstNumber(first)
    decreases last - first
  {
    if first < last {
      CountBefore(first + 1, last);
      NextDay(first);
    }
  }

  // ---------------------------------------------------------------- the offset

  /** The date `offset` business days away: counted from the last business day when going forward, from the
      first one ahead when going back. */
  ghost function Offset(date: int, offset: int): int {
    if offset == 0 then date else if offset > 0 then Day(LastNumber(date) + offset) else Day(FirstNumber(date) + offset)
  }

  ghost predicate Lands(date: int, offset: int, result: int) {
    && (offset == 0 ==> result == date)
    && (offset > 0 ==> result > date && IsBusinessDay(result) && BusinessDaysAfter(date, result) == offset)
    && (offset < 0 ==> result < date && IsBusinessDay(result) && BusinessDaysBefore(result, date) == -offset)
  }

  lemma {:induction false} NumbersAscend(a: int, b: int)
    requires a <= b
    ensures LastNumber(a) <= LastNumber(b) && FirstNumber(a) <= FirstNumber(b)
  {
    CountAfter(a, b);
    CountBefore(a, b);
  }

  /** The offset is the one date that is a business day and lies exactly `|offset|` business days away. */
  lemma OffsetCrosses(date: int, offset: int, result: int)
    ensures Lands(date, offset, result) <==> result == Offset(date, offset)
  {
    var there := Offset(date, offset);
    if offset > 0 {
      DayAndNumber(LastNumber(date) + offset);
      if there <= date {
        NumbersAscend(there, date);
      }
      CountAfter(date, there);
      if Lands(date, offset, result) {
        CountAfter(date, result);
        NumberAndDay(result);
      }
    } else if offset < 0 {
      DayAndNumber(FirstNumber(date) + offset);
      if there >= date {
        NumbersAscend(date, there);
      }
      CountBefore(there, date);
      if Lands(date, offset, result) {
        CountBefore(result, date);
        NumberAndDay(result);
      }
    }
  }

  /** From a business day offsets add up, whatever their signs. */
  lemma OffsetsAddUp(date: int, m: int, n: int)
    requires IsBusinessDay(date)
    ensures Offset(Offset(date, m), n) == Offset(date, m + n)
  {
    NumberAndDay(date);
    DayAndNumber(LastNumber(date) + m);
  }

  /** From any date two offsets add up exactly when it is a business day, the first offset is zero, or the sum keeps
      the sign of the first. */
  lemma OffsetsAddUpIff(date: int, m: int, n: int)
    ensures Offset(Offset(date, m), n) == Offset(date, m + n)
       <==> IsBusinessDay(date) || m == 0 || (m > 0 && m + n > 0) || (m < 0 && m + n < 0)
  {
    if IsBusinessDay(date) {
      OffsetsAddUp(date, m, n);
    } else if m != 0 {
      WeekendNumbers(date);
      var first := if m > 0 then LastNumber(date) + m else FirstNumber(date) + m;
      DayAndNumber(first);
      NumberAndDay(Day(first));
      DayAndNumber(first + n);
      DayAndNumber(LastNumber(date) + m + n);
      DayAndNumber(FirstNumber(date) + m + n);
    }
  }

  /** A Saturday moved one business day on and one back ends on the Friday before. */
  lemma SaturdayDoesNotReturn(date: int)
    requires Weekday(date) == 5
    ensures Offset(Offset(date, 1), -1) == date - 1 && Offset(date, 0) == date
  {
    var week := (date + 6) / 7;
    assert LastNumber(date) == 5 * week + 4;
    assert Offset(date, 1) == 7 * (week + 1) - 6;
    assert FirstNumber(Offset(date, 1)) == 5 * (week + 1);
  }

  /** Walks day by day, counting the business days it steps on. */
  method BusinessSessionOffset(date: int, offset: int) returns (current: int)
    ensures Lands(date, offset, current) && current == Offset(date, offset)
  {
    var step := if offset >= 0 then 1 else -1;
    var remaining := if offset >= 0 then offset else -offset;
    current := date;
    while remaining > 0
      invariant remaining >= 0
      invariant offset >= 0 ==> remaining <= offset && LastNumber(current) + remaining == LastNumber(date) + offset
      invariant offset < 0 ==> remaining <= -offset && FirstNumber(current) - remaining == FirstNumber(date) + offset
      invariant offset == 0 ==> current == date
      invariant remaining == 0 && offset != 0 ==> IsBusinessDay(current)
      decreases remaining, DaysToBusiness(current, step)
    {
      NextDay(if step == 1 then current else current - 1);
      BusinessIsNear(current, step);
      current := current + step;
      if Weekday(current) < 5 {
        remaining := remaining - 1;
      }
    }
    Arrived(date, offset, current);
  }

  lemma Arrived(date: int, offset: int, current: int)
    requires if offset == 0 then current == date else IsBusinessDay(current)
    requires offset > 0 ==> LastNumber(current) == LastNumber(date) + offset
    requires offset < 0 ==> FirstNumber(current) == FirstNumber(date) + offset
    ensures Lands(date, offset, current) && current == Offset(date, offset)
  {
    if offset != 0 {
      NumberAndDay(current);
    }
    OffsetCrosses(date, offset, current);
  }

  /** Days until the walk next steps on a business day. */
  ghost function DaysToBusiness(date: int, step: int): nat {
    if step == 1 then (if Weekday(date) == 4 then 2 else if Weekday(date) == 5 then 1 else 0)
    else (if Weekday(date) == 0 then 2 else if Weekday(date) == 6 then 1 else 0)
  }

  lemma BusinessIsNear(date: int, step: int)
    requires step == 1 || step == -1
    ensures IsBusinessDay(date + step) || DaysToBusiness(date + step, step) < DaysToBusiness(date, step)
  {
  }
}
