/** UTC months of the proleptic Gregorian calendar, as `time.Date` and
    `AddDate(0, 1, 0)` compute them. Month `m` of year `y`, counting January as
    0, has index 12*y + m. */
module Calendar {
  import opened Sql

  // ------------------------------------------------ grids of bounded step width

  predicate Step(f: int -> int, k: int) {
    28 <= f(k + 1) - f(k) <= 31
  }

  ghost predicate Grid(f: int -> int) {
    forall k :: Step(f, k)
  }

  lemma {:induction false} GridGrows(f: int -> int, a: int, b: int)
    requires Grid(f) && a <= b
    ensures 28 * (b - a) <= f(b) - f(a)
    decreases b - a
  {
    if a < b {
      GridGrows(f, a, b - 1);
      assert Step(f, b - 1);
    }
  }

  /** The cell of the grid that holds `day`, searched for upwards. */
  ghost function CellFrom(f: int -> int, day: int, from: int): (k: int)
    requires Grid(f) && f(from) <= day
    ensures f(k) <= day < f(k + 1)
    decreases day - f(from)
  {
    assert Step(f, from);
    if day < f(from + 1) then from else CellFrom(f, day, from + 1)
  }

  ghost function Cell(f: int -> int, day: int): (k: int)
    requires Grid(f)
    ensures f(k) <= day < f(k + 1)
  {
    var low := if day < f(0) then day - f(0) else 0;
    GridGrows(f, low, 0);
    CellFrom(f, day, low)
  }

  lemma CellUnique(f: int -> int, day: int, a: int, b: int)
    requires Grid(f)
    requires f(a) <= day < f(a + 1) && f(b) <= day < f(b + 1)
    ensures a == b
  {
    if a < b {
      GridGrows(f, a + 1, b);
    } else if b < a {
      GridGrows(f, b + 1, a);
    }
  }

  // -------------------------------------------------------------------- months

  predicate LeapYear(y: int) {
    y % 4 == 0 && (y % 100 != 0 || y % 400 == 0)
  }

  /** Days from 0000-01-01 to the first of January of year `y`. */
  function DaysBeforeYear(y: int): int {
    365 * y + (y + 3) / 4 - (y + 99) / 100 + (y + 399) / 400
  }

  function DaysBeforeMonth(leap: bool, m: int): int
    requires 0 <= m < 12
  {
    [0, 31, 59, 90, 120, 151, 181, 212, 243, 273, 304, 334][m] + if m >= 2 && leap then 1 else 0
  }

  function DaysIn(leap: bool, m: int): int
    requires 0 <= m < 12
  {
    if m == 1 then (if leap then 29 else 28)
    else if m == 3 || m == 5 || m == 8 || m == 10 then 30
    else 31
  }

  /** Day number of the first day of a month, by its index. */
  function FirstDay(month: int): int {
    DaysBeforeYear(month / 12) + DaysBeforeMonth(LeapYear(month / 12), month % 12)
  }

  lemma StepDivision(y: int, d: int)
    requires d == 4 || d == 100 || d == 400
    ensures (y + d) / d - (y + d - 1) / d == if y % d == 0 then 1 else 0
  {
  }

  lemma Divisibility(y: int)
    ensures y % 400 == 0 ==> y % 100 == 0
    ensures y % 100 == 0 ==> y % 4 == 0
  {
  }

  lemma YearLength(y: int)
    ensures DaysBeforeYear(y + 1) - DaysBeforeYear(y) == if LeapYear(y) then 366 else 365
  {
    StepDivision(y, 4);
    StepDivision(y, 100);
    StepDivision(y, 400);
    Divisibility(y);
    YearTerms(y, (y + 3) / 4, (y + 99) / 100, (y + 399) / 400);
  }

  lemma YearTerms(y: int, q4: int, q100: int, q400: int)
    requires q4 == (y + 3) / 4 && q100 == (y + 99) / 100 && q400 == (y + 399) / 400
    ensures DaysBeforeYear(y) == 365 * y + q4 - q100 + q400
    ensures DaysBeforeYear(y + 1) == 365 * y + 365 + (y + 4) / 4 - (y + 100) / 100 + (y + 400) / 400
  {
  }

  /** `AddDate(0, 1, 0)` from the first of a month lands on the first of the next,
      also across December and February. */
  lemma MonthLength(month: int)
    ensures FirstDay(month + 1) - FirstDay(month) == DaysIn(LeapYear(month / 12), month % 12)
    ensures Step(FirstDay, month)
  {
    var y, m := month / 12, month % 12;
    if m == 11 {
      assert (month + 1) / 12 == y + 1 && (month + 1) % 12 == 0;
      YearLength(y);
    } else {
      assert (month + 1) / 12 == y && (month + 1) % 12 == m + 1;
    }
  }

  lemma MonthsFormGrid()
    ensures Grid(FirstDay)
  {
    forall k ensures Step(FirstDay, k) {
      MonthLength(k);
    }
  }

  /** Day number of the Unix epoch. */
  const EPOCH_DAY: int := 719_528

  /** It is the first of January 1970, and that month has 31 days. */
  lemma EpochIsJanuary1970(month: int)
    requires month == 12 * 1970
    ensures FirstDay(month) == EPOCH_DAY && FirstDay(month + 1) == EPOCH_DAY + 31
  {
    assert month / 12 == 1970 && month % 12 == 0;
    assert DaysBeforeYear(1970) == EPOCH_DAY;
    MonthLength(month);
  }

  /** First instant of a day. */
  function Midnight(day: int): int {
    (day - EPOCH_DAY) * DAY
  }

  function DayOf(now: int): int {
    now / DAY + EPOCH_DAY
  }

  lemma DayBounds(now: int, day: int)
    ensures Midnight(day) <= now <==> day <= DayOf(now)
  {
    assert DAY * (now / DAY) <= now < DAY * (now / DAY) + DAY;
    if day <= DayOf(now) {
      assert DAY * (day - EPOCH_DAY) <= DAY * (now / DAY);
    } else {
      assert DAY * (day - EPOCH_DAY) >= DAY * (now / DAY + 1);
    }
  }

  /** The cell of a grid of days in which an instant falls, as a half-open
      interval of instants. */
  ghost function Interval(f: int -> int, now: int): (int, int)
    requires Grid(f)
  {
    var k := Cell(f, DayOf(now));
    (Midnight(f(k)), Midnight(f(k + 1)))
  }

  lemma IntervalIs(f: int -> int, k: int, now: int)
    requires Grid(f) && f(k) <= DayOf(now) < f(k + 1)
    ensures Interval(f, now) == (Midnight(f(k)), Midnight(f(k + 1)))
  {
    CellUnique(f, DayOf(now), Cell(f, DayOf(now)), k);
  }

  lemma IntervalContains(f: int -> int, now: int)
    requires Grid(f)
    ensures Interval(f, now).0 <= now < Interval(f, now).1
  {
    var k := Cell(f, DayOf(now));
    DayBounds(now, f(k));
    DayBounds(now, f(k + 1));
  }

  lemma IntervalsTile(f: int -> int, now: int, later: int)
    requires Grid(f) && Interval(f, now).0 <= later
    ensures later < Interval(f, now).1 ==> Interval(f, later) == Interval(f, now)
    ensures later == Interval(f, now).1 ==> Interval(f, later).0 == later
  {
    var k, day := Cell(f, DayOf(now)), DayOf(later);
    DayBounds(later, f(k));
    DayBounds(later, f(k + 1));
    if later < Interval(f, now).1 {
      CellUnique(f, day, Cell(f, day), k);
    } else if later == Interval(f, now).1 {
      assert Step(f, k + 1);
      DayBounds(later, f(k + 1) + 1);
      CellUnique(f, day, Cell(f, day), k + 1);
    }
  }

  /** `calendarMonth`: the month in which `now` falls, up to the next one. */
  ghost function CalendarMonth(now: int): (int, int) {
    MonthsFormGrid();
    Interval(FirstDay, now)
  }

  /** The clock starts with January 1970. */
  lemma EpochMonth()
    ensures CalendarMonth(0) == (0, 31 * DAY)
  {
    MonthsFormGrid();
    // Named, since at a literal month the calendar would be computed out in full.
    var january :| january == 12 * 1970;
    EpochIsJanuary1970(january);
    IntervalIs(FirstDay, january, 0);
  }

  /** Days of a month, counted in months from January 1970. */
  function Length(k: int): int {
    var year, month := 1970 + k / 12, k % 12;
    if month == 1 then if year % 4 == 0 && (year % 100 != 0 || year % 400 == 0) then 29 else 28
    else if month == 3 || month == 5 || month == 8 || month == 10 then 30
    else 31
  }

  /** Its first instant, by adding up the months in between. */
  function MonthStart(k: int): int
    decreases if k < 0 then -k else k
  {
    if k == 0 then 0
    else if k > 0 then MonthStart(k - 1) + Length(k - 1) * DAY
    else MonthStart(k + 1) - Length(k) * DAY
  }

  lemma SameLength(january: int, k: int)
    requires january == 12 * 1970
    ensures FirstDay(january + k + 1) - FirstDay(january + k) == Length(k)
  {
    MonthLength(january + k);
    assert (january + k) / 12 == 1970 + k / 12 && (january + k) % 12 == k % 12;
  }

  predicate StepsBy(f: int -> int, january: int, k: int) {
    f(january + k + 1) - f(january + k) == Length(k)
  }

  lemma {:induction false} SameStart(f: int -> int, january: int, k: int)
    requires f(january) == EPOCH_DAY && forall j :: StepsBy(f, january, j)
    ensures MonthStart(k) == Midnight(f(january + k))
    decreases if k < 0 then -k else k
  {
    if k > 0 {
      SameStart(f, january, k - 1);
      assert StepsBy(f, january, k - 1);
      Shifted(f(january + k - 1), f(january + k), Length(k - 1));
    } else if k < 0 {
      SameStart(f, january, k + 1);
      assert StepsBy(f, january, k);
      Shifted(f(january + k), f(january + k + 1), Length(k));
    }
  }

  lemma Shifted(a: int, b: int, days: int)
    requires b - a == days
    ensures Midnight(b) == Midnight(a) + days * DAY
  {
  }

  lemma IntervalBetween(f: int -> int, k: int, now: int)
    requires Grid(f) && Midnight(f(k)) <= now < Midnight(f(k + 1))
    ensures Interval(f, now) == (Midnight(f(k)), Midnight(f(k + 1)))
  {
    DayBounds(now, f(k));
    DayBounds(now, f(k + 1));
    IntervalIs(f, k, now);
  }

  lemma MonthBetween(f: int -> int, january: int, k: int, now: int)
    requires Grid(f) && f(january) == EPOCH_DAY && forall j :: StepsBy(f, january, j)
    requires MonthStart(k) <= now < MonthStart(k + 1)
    ensures Interval(f, now) == (MonthStart(k), MonthStart(k + 1))
  {
    SameStart(f, january, k);
    SameStart(f, january, k + 1);
    IntervalBetween(f, january + k, now);
  }

  /** The month of an instant is the one between whose starts it lies. */
  lemma CalendarMonthIs(k: int, now: int)
    requires MonthStart(k) <= now < MonthStart(k + 1)
    ensures CalendarMonth(now) == (MonthStart(k), MonthStart(k + 1))
  {
    MonthsFormGrid();
    var january :| january == 12 * 1970;
    EpochIsJanuary1970(january);
    forall j ensures StepsBy(FirstDay, january, j) {
      SameLength(january, j);
    }
    MonthBetween(FirstDay, january, k, now);
  }

  lemma CalendarMonthContains(now: int)
    ensures CalendarMonth(now).0 <= now < CalendarMonth(now).1
  {
    MonthsFormGrid();
    IntervalContains(FirstDay, now);
  }

  /** Consecutive months abut and every instant lies in exactly one of them. */
  lemma CalendarMonthsTile(now: int, later: int)
    requires CalendarMonth(now).0 <= later
    ensures later < CalendarMonth(now).1 ==> CalendarMonth(later) == CalendarMonth(now)
    ensures later == CalendarMonth(now).1 ==> CalendarMonth(later).0 == later
  {
    MonthsFormGrid();
    IntervalsTile(FirstDay, now, later);
  }
}
