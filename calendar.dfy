/** Civil dates in the proleptic Gregorian calendar, as Python's
    `datetime.date` has them, with the one piece of date arithmetic the
    coordinator needs: stepping back a number of days (`today - timedelta(days=k)`).
    `Ordinal` is Python's `date.toordinal()`; the lemmas show that stepping back
    k days lowers the ordinal by exactly k, which is how Python defines the
    subtraction. */
module Calendar {

  datatype Date = Date(year: int, month: int, day: int)

  predicate IsLeap(y: int)
  {
    y % 4 == 0 && (y % 100 != 0 || y % 400 == 0)
  }

  function DaysInMonth(y: int, m: int): int
  {
    if m == 2 then (if IsLeap(y) then 29 else 28)
    else if m == 4 || m == 6 || m == 9 || m == 11 then 30
    else 31
  }

  predicate ValidDate(d: Date)
  {
    1 <= d.month <= 12 && 1 <= d.day <= DaysInMonth(d.year, d.month)
  }

  /** The day before `d`. */
  function PrevDay(d: Date): (p: Date)
    requires ValidDate(d)
    ensures ValidDate(p)
  {
    if d.day > 1 then Date(d.year, d.month, d.day - 1)
    else if d.month > 1 then Date(d.year, d.month - 1, DaysInMonth(d.year, d.month - 1))
    else Date(d.year - 1, 12, 31)
  }

  /** `d - timedelta(days=k)`. */
  function MinusDays(d: Date, k: nat): (r: Date)
    requires ValidDate(d)
    ensures ValidDate(r)
    decreases k
  {
    if k == 0 then d else MinusDays(PrevDay(d), k - 1)
  }

  /** Python's `_days_before_year`. */
  function DaysBeforeYear(y: int): int
  {
    var x := y - 1;
    x * 365 + x / 4 - x / 100 + x / 400
  }

  /** Days in the months of year `y` before month `m`. */
  function DaysBeforeMonth(y: int, m: int): int
    requires 1 <= m <= 12
  {
    if m == 1 then 0 else DaysBeforeMonth(y, m - 1) + DaysInMonth(y, m - 1)
  }

  /** Python's `date.toordinal()` (1 for 0001-01-01). */
  function Ordinal(d: Date): int
    requires ValidDate(d)
  {
    DaysBeforeYear(d.year) + DaysBeforeMonth(d.year, d.month) + d.day
  }

  lemma DaysBeforeDecember(y: int)
    ensures DaysBeforeMonth(y, 12) + 31 == (if IsLeap(y) then 366 else 365)
  {
    assert DaysBeforeMonth(y, 2) == 31;
    assert DaysBeforeMonth(y, 3) == 31 + DaysInMonth(y, 2);
    assert DaysBeforeMonth(y, 4) == DaysBeforeMonth(y, 3) + 31;
    assert DaysBeforeMonth(y, 5) == DaysBeforeMonth(y, 3) + 61;
    assert DaysBeforeMonth(y, 6) == DaysBeforeMonth(y, 3) + 92;
    assert DaysBeforeMonth(y, 7) == DaysBeforeMonth(y, 3) + 122;
    assert DaysBeforeMonth(y, 8) == DaysBeforeMonth(y, 3) + 153;
    assert DaysBeforeMonth(y, 9) == DaysBeforeMonth(y, 3) + 184;
    assert DaysBeforeMonth(y, 10) == DaysBeforeMonth(y, 3) + 214;
    assert DaysBeforeMonth(y, 11) == DaysBeforeMonth(y, 3) + 245;
  }

  lemma NextQuotient4(x: int)
    ensures (x + 1) / 4 == x / 4 + (if (x + 1) % 4 == 0 then 1 else 0)
  {
  }

  lemma NextQuotient100(x: int)
    ensures (x + 1) / 100 == x / 100 + (if (x + 1) % 100 == 0 then 1 else 0)
  {
  }

  lemma NextQuotient400(x: int)
    ensures (x + 1) / 400 == x / 400 + (if (x + 1) % 400 == 0 then 1 else 0)
  {
  }

  lemma DaysBeforeNextYear(y: int)
    ensures DaysBeforeYear(y + 1) == DaysBeforeYear(y) + (if IsLeap(y) then 366 else 365)
  {
    NextQuotient4(y - 1);
    NextQuotient100(y - 1);
    NextQuotient400(y - 1);
  }

  /** The day before has the ordinal one less. */
  lemma PrevDayOrdinal(d: Date)
    requires ValidDate(d)
    ensures Ordinal(PrevDay(d)) == Ordinal(d) - 1
  {
    if d.day == 1 && d.month == 1 {
      DaysBeforeDecember(d.year - 1);
      DaysBeforeNextYear(d.year - 1);
    }
  }

  /** Stepping back k days lowers the ordinal by exactly k: `MinusDays` is
      Python's `date - timedelta(days=k)`. */
  lemma {:induction false} MinusDaysOrdinal(d: Date, k: nat)
    requires ValidDate(d)
    ensures Ordinal(MinusDays(d, k)) == Ordinal(d) - k
    decreases k
  {
    if k > 0 {
      PrevDayOrdinal(d);
      MinusDaysOrdinal(PrevDay(d), k - 1);
    }
  }

  lemma {:induction false} DaysBeforeYearMonotone(a: int, b: int)
    requires a <= b
    ensures DaysBeforeYear(a) <= DaysBeforeYear(b)
    decreases b - a
  {
    if a < b {
      DaysBeforeNextYear(a);
      DaysBeforeYearMonotone(a + 1, b);
    }
  }

  lemma {:induction false} DaysBeforeMonthNonNegative(y: int, m: int)
    requires 1 <= m <= 12
    ensures DaysBeforeMonth(y, m) >= 0
  {
    if m > 1 {
      DaysBeforeMonthNonNegative(y, m - 1);
    }
  }

  /** Month `a` ends no later than month `b` begins. */
  lemma {:induction false} MonthEndsBefore(y: int, a: int, b: int)
    requires 1 <= a < b <= 12
    ensures DaysBeforeMonth(y, a) + DaysInMonth(y, a) <= DaysBeforeMonth(y, b)
    decreases b - a
  {
    if a + 1 < b {
      MonthEndsBefore(y, a, b - 1);
    }
  }

  /** The ordinal of a date lies in its own year's range of day numbers. */
  lemma OrdinalWithinYear(d: Date)
    requires ValidDate(d)
    ensures DaysBeforeYear(d.year) < Ordinal(d) <= DaysBeforeYear(d.year + 1)
  {
    DaysBeforeMonthNonNegative(d.year, d.month);
    if d.month < 12 {
      MonthEndsBefore(d.year, d.month, 12);
    }
    DaysBeforeDecember(d.year);
    DaysBeforeNextYear(d.year);
  }

  /** `a` comes before `b` on the calendar. */
  predicate Before(a: Date, b: Date)
  {
    a.year < b.year || (a.year == b.year && (a.month < b.month || (a.month == b.month && a.day < b.day)))
  }

  /** The ordinal follows calendar order. */
  lemma OrdinalMonotone(a: Date, b: Date)
    requires ValidDate(a) && ValidDate(b) && Before(a, b)
    ensures Ordinal(a) < Ordinal(b)
  {
    if a.year < b.year {
      OrdinalWithinYear(a);
      OrdinalWithinYear(b);
      DaysBeforeYearMonotone(a.year + 1, b.year);
    } else if a.month < b.month {
      MonthEndsBefore(a.year, a.month, b.month);
    }
  }

  /** Distinct valid dates have distinct ordinals, so a date is fixed by its
      day number (as `date.fromordinal` relies on). */
  lemma OrdinalInjective(a: Date, b: Date)
    requires ValidDate(a) && ValidDate(b)
    ensures Ordinal(a) == Ordinal(b) <==> a == b
  {
    if Before(a, b) {
      OrdinalMonotone(a, b);
    } else if Before(b, a) {
      OrdinalMonotone(b, a);
    }
  }

  /** `d - timedelta(days=k)` is the one valid date whose ordinal is `k`
      less than that of `d`. */
  lemma MinusDaysIsUnique(d: Date, k: nat, e: Date)
    requires ValidDate(d) && ValidDate(e)
    ensures e == MinusDays(d, k) <==> Ordinal(e) == Ordinal(d) - k
  {
    MinusDaysOrdinal(d, k);
    OrdinalInjective(e, MinusDays(d, k));
  }

  /** `d.year * 100 + d.month`, the YYYYMM form the usage query takes. */
  function YearMonth(d: Date): (r: int)
    requires ValidDate(d)
    ensures r / 100 == d.year && r % 100 == d.month
  {
    d.year * 100 + d.month
  }
}
