/** The civil-date arithmetic of benches/bench_table.rs: a closed formula for the
    number of days since 1970-01-01, proved equal to counting days through the
    proleptic Gregorian calendar (section 3.2.1 of ISO 8601:2004). */
module CivilDate {
  import opened Wrappers

  // ── The source's formula ──────────────────────────────────────────────────

  /** Howard Hinnant's formula. Years begin in March, in eras of 400 years. */
  function Days(year: int, month: int, day: int): int {
    var y := if month <= 2 then year - 1 else year;
    var era := y / 400;
    var yoe := y - era * 400;
    var doy := (153 * (if month > 2 then month - 3 else month + 9) + 2) / 5 + day - 1;
    var doe := yoe * 365 + yoe / 4 - yoe / 100 + doy;
    era * 146_097 + doe - 719_468
  }

  // ── The calendar ──────────────────────────────────────────────────────────

  predicate IsLeap(y: int) {
    y % 4 == 0 && (y % 100 != 0 || y % 400 == 0)
  }

  function YearLength(y: int): int {
    if IsLeap(y) then 366 else 365
  }

  function MonthLength(y: int, m: int): int {
    if m == 2 then (if IsLeap(y) then 29 else 28)
    else if m == 4 || m == 6 || m == 9 || m == 11 then 30
    else 31
  }

  datatype Date = Date(y: int, m: int, d: int) {
    predicate Valid() {
      1 <= m <= 12 && 1 <= d <= MonthLength(y, m)
    }

    function Count(): int {
      Days(y, m, d)
    }

    function Tomorrow(): Date {
      if d < MonthLength(y, m) then Date(y, m, d + 1)
      else if m < 12 then Date(y, m + 1, 1)
      else Date(y + 1, 1, 1)
    }

    function Yesterday(): Date {
      if d > 1 then Date(y, m, d - 1)
      else if m > 1 then Date(y, m - 1, MonthLength(y, m - 1))
      else Date(y - 1, 12, 31)
    }

    /** Calendar order. */
    predicate Before(o: Date) {
      y < o.y || (y == o.y && (m < o.m || (m == o.m && d < o.d)))
    }
  }

  /** Days from the epoch to January 1st of `y`, one year at a time. */
  function YearStart(y: int): int
    decreases if y >= 1970 then y - 1970 else 1970 - y
  {
    if y == 1970 then 0
    else if y > 1970 then YearStart(y - 1) + YearLength(y - 1)
    else YearStart(y + 1) - YearLength(y)
  }

  /** Days of the year before the first of month `m`, one month at a time. */
  function MonthStart(y: int, m: int): int
    requires 1 <= m <= 12
    decreases m
  {
    if m == 1 then 0 else MonthStart(y, m - 1) + MonthLength(y, m - 1)
  }

  // ── The formula counts days ───────────────────────────────────────────────

  /** Eras and years of an era are only a way to count leap days. */
  lemma {:induction false} JanuaryFirst(y: int)
    ensures var a := y - 1;
            Days(y, 1, 1) == 365 * a + a / 4 - a / 100 + a / 400 + 306 - 719_468
  {
    var a := y - 1;
    var era := a / 400;
    var yoe := a - era * 400;
    assert 0 <= yoe < 400;
    assert a / 4 == 100 * era + yoe / 4;
    assert a / 100 == 4 * era + yoe / 100;
  }

  lemma {:induction false} LeapDays(a: int)
    ensures (a + 1) / 4 == a / 4 + (if (a + 1) % 4 == 0 then 1 else 0)
    ensures (a + 1) / 100 == a / 100 + (if (a + 1) % 100 == 0 then 1 else 0)
    ensures (a + 1) / 400 == a / 400 + (if (a + 1) % 400 == 0 then 1 else 0)
    ensures (a + 1) % 400 == 0 ==> (a + 1) % 100 == 0
    ensures (a + 1) % 100 == 0 ==> (a + 1) % 4 == 0
  {
    var n := a + 1;
    assert n % 400 == 0 ==> n == 100 * (4 * (n / 400));
    assert n % 100 == 0 ==> n == 4 * (25 * (n / 100));
  }

  lemma {:induction false} NextYear(y: int)
    ensures Days(y + 1, 1, 1) == Days(y, 1, 1) + YearLength(y)
  {
    JanuaryFirst(y);
    JanuaryFirst(y + 1);
    LeapDays(y - 1);
  }

  lemma {:induction false} YearStarts(y: int)
    ensures Days(y, 1, 1) == YearStart(y)
    decreases if y >= 1970 then y - 1970 else 1970 - y
  {
    if y > 1970 {
      YearStarts(y - 1);
      NextYear(y - 1);
    } else if y < 1970 {
      YearStarts(y + 1);
      NextYear(y);
    }
  }

  /** January and February belong to the formula's previous year. */
  lemma {:induction false} MarchFirst(y: int)
    ensures Days(y, 3, 1) == Days(y, 1, 1) + 31 + MonthLength(y, 2)
  {
    NextYear(y);
    assert Days(y + 1, 1, 1) == Days(y, 3, 1) + 306;
  }

  /** Days of the formula's year before month `m`, for the months from March on. */
  function FormulaMonth(m: int): int {
    (153 * (m - 3) + 2) / 5
  }

  lemma {:induction false} FormulaMonths(m: int)
    requires 3 <= m < 12
    ensures FormulaMonth(m + 1) - FormulaMonth(m) == if m == 4 || m == 6 || m == 9 || m == 11 then 30 else 31
  {
    assert FormulaMonth(3) == 0 && FormulaMonth(4) == 31 && FormulaMonth(5) == 61 && FormulaMonth(6) == 92;
    assert FormulaMonth(7) == 122 && FormulaMonth(8) == 153 && FormulaMonth(9) == 184 && FormulaMonth(10) == 214;
    assert FormulaMonth(11) == 245 && FormulaMonth(12) == 275;
  }

  lemma {:induction false} FromMarch(y: int, m: int)
    requires 3 <= m <= 12
    ensures Days(y, m, 1) == Days(y, 3, 1) + FormulaMonth(m)
  {}

  /** Within a formula year the months are as long as in the calendar. */
  lemma {:induction false} NextMonth(y: int, m: int)
    requires 2 <= m <= 12
    ensures Days(y, m, 1) == Days(y, m - 1, 1) + MonthLength(y, m - 1)
  {
    if m == 2 {
    } else if m == 3 {
      MarchFirst(y);
    } else {
      FromMarch(y, m - 1);
      FromMarch(y, m);
      FormulaMonths(m - 1);
    }
  }

  lemma {:induction false} MonthStarts(y: int, m: int)
    requires 1 <= m <= 12
    ensures Days(y, m, 1) == Days(y, 1, 1) + MonthStart(y, m)
    decreases m
  {
    if m > 1 {
      NextMonth(y, m);
      MonthStarts(y, m - 1);
    }
  }

  /** The formula is the day count through the calendar, for every year and every
      day number the source accepts. */
  lemma {:induction false} FormulaCountsDays(y: int, m: int, d: int)
    requires 1 <= m <= 12
    ensures Days(y, m, d) == YearStart(y) + MonthStart(y, m) + d - 1
  {
    YearStarts(y);
    MonthStarts(y, m);
    assert Days(y, m, d) == Days(y, m, 1) + d - 1;
  }

  lemma {:induction false} YearIsItsMonths(y: int)
    ensures MonthStart(y, 12) + 31 == YearLength(y)
  {
    assert MonthStart(y, 4) == 31 + MonthLength(y, 2) + 31;
    assert MonthStart(y, 8) == MonthStart(y, 4) + 30 + 31 + 30 + 31;
    assert MonthStart(y, 12) == MonthStart(y, 8) + 31 + 30 + 31 + 30;
  }

  /** The epoch is day 0, and each day of the calendar is exactly one more than
      the day before it: across months, leap years, centuries and eras. */
  lemma {:induction false} CountsEveryDay(date: Date)
    requires date.Valid()
    ensures Date(1970, 1, 1).Count() == 0
    ensures date.Tomorrow().Valid() && date.Tomorrow().Count() == date.Count() + 1
    ensures date.Yesterday().Valid() && date.Yesterday().Tomorrow() == date
  {
    if date.d == MonthLength(date.y, date.m) {
      FirstOfNext(date.y, date.m);
    }
    assert Date(date.y, date.m, date.d).Count() == Days(date.y, date.m, 1) + date.d - 1;
  }

  lemma {:induction false} FirstOfNext(y: int, m: int)
    requires 1 <= m <= 12
    ensures var last := Date(y, m, MonthLength(y, m)); last.Tomorrow().Count() == last.Count() + 1
  {
    if m < 12 {
      NextMonth(y, m + 1);
    } else {
      FormulaCountsDays(y, 12, 31);
      FormulaCountsDays(y + 1, 1, 1);
      YearIsItsMonths(y);
      assert YearStart(y + 1) == YearStart(y) + YearLength(y);
    }
  }

  // ── Order ─────────────────────────────────────────────────────────────────

  lemma {:induction false} YearStartsGrow(a: int, b: int)
    requires a < b
    ensures YearStart(a) + YearLength(a) <= YearStart(b)
    decreases b - a
  {
    assert YearStart(a + 1) == YearStart(a) + YearLength(a);
    if a + 1 < b {
      YearStartsGrow(a + 1, b);
    }
  }

  lemma {:induction false} MonthStartsGrow(y: int, a: int, b: int)
    requires 1 <= a < b <= 12
    ensures MonthStart(y, a) + MonthLength(y, a) <= MonthStart(y, b)
    decreases b - a
  {
    if a + 1 < b {
      MonthStartsGrow(y, a, b - 1);
    }
  }

  lemma {:induction false} WithinYear(date: Date)
    requires date.Valid()
    ensures 0 <= MonthStart(date.y, date.m) + date.d - 1 < YearLength(date.y)
  {
    YearIsItsMonths(date.y);
    if date.m < 12 {
      MonthStartsGrow(date.y, date.m, 12);
    }
    if 1 < date.m {
      MonthStartsGrow(date.y, 1, date.m);
    }
  }

  /** The count is strictly increasing along the calendar, hence injective. */
  lemma {:induction false} StrictlyIncreasing(a: Date, b: Date)
    requires a.Valid() && b.Valid()
    ensures a.Before(b) <==> a.Count() < b.Count()
    ensures a.Count() == b.Count() <==> a == b
  {
    if a.Before(b) {
      EarlierIsSmaller(a, b);
    } else if b.Before(a) {
      EarlierIsSmaller(b, a);
    }
  }

  lemma {:induction false} EarlierIsSmaller(a: Date, b: Date)
    requires a.Valid() && b.Valid() && a.Before(b)
    ensures a.Count() < b.Count()
  {
    FormulaCountsDays(a.y, a.m, a.d);
    FormulaCountsDays(b.y, b.m, b.d);
    if a.y < b.y {
      YearStartsGrow(a.y, b.y);
      WithinYear(a);
      WithinYear(b);
    } else if a.m < b.m {
      MonthStartsGrow(a.y, a.m, b.m);
    }
  }

  /** Every day number is the count of some valid date: the formula is a bijection
      between the calendar and the integers. */
  lemma {:induction false} EveryDayHasADate(n: int)
    ensures exists date: Date :: date.Valid() && date.Count() == n
    decreases if n >= 0 then n else -n
  {
    var epoch := Date(1970, 1, 1);
    if n == 0 {
      assert epoch.Valid() && epoch.Count() == 0;
    } else if n > 0 {
      EveryDayHasADate(n - 1);
      var date: Date :| date.Valid() && date.Count() == n - 1;
      CountsEveryDay(date);
      assert date.Tomorrow().Valid();
    } else {
      EveryDayHasADate(n + 1);
      var date: Date :| date.Valid() && date.Count() == n + 1;
      CountsEveryDay(date);
      CountsEveryDay(date.Yesterday());
      assert date.Yesterday().Valid();
    }
  }

  /** The source accepts every day number up to 31 in every month. One that the
      month does not have is counted into the next month, so it collides with
      exactly one date there: the accepted triples are injective only where valid. */
  lemma {:induction false} OverlongDaySpillsOver(y: int, m: int, d: int)
    requires 1 <= m <= 12 && MonthLength(y, m) < d <= 31
    ensures Date(y, m + 1, d - MonthLength(y, m)).Valid()
    ensures Days(y, m, d) == Days(y, m + 1, d - MonthLength(y, m))
  {
    FormulaCountsDays(y, m, d);
    FormulaCountsDays(y, m + 1, d - MonthLength(y, m));
  }

  const I64_MAX := 0x7fff_ffff_ffff_ffff

  predicate FitsI64(n: int) {
    -I64_MAX - 1 <= n <= I64_MAX
  }

  /** Every value that evaluating the formula passes through fits 64 bits. */
  predicate NoneOverflows(year: int, month: int, day: int) {
    var y := if month <= 2 then year - 1 else year;
    var era := y / 400;
    var yoe := y - era * 400;
    var moved := 153 * (if month > 2 then month - 3 else month + 9) + 2;
    var doy := moved / 5 + day - 1;
    var doe := yoe * 365 + yoe / 4 - yoe / 100 + doy;
    && FitsI64(y) && FitsI64(era * 400) && FitsI64(yoe) && FitsI64(moved) && FitsI64(doy) && FitsI64(doe)
    && FitsI64(era * 146_097) && FitsI64(era * 146_097 + doe) && FitsI64(era * 146_097 + doe - 719_468)
  }

  const MAX_COUNT := I64_MAX - 719_468

  /** The formula overflows exactly when its last sum but one does, or its result falls
      below 64 bits. */
  lemma {:induction false} FitsExactly(year: int, month: int, day: int)
    requires 1 <= month <= 12 && 1 <= day <= 31
    ensures NoneOverflows(year, month, day) <==> -I64_MAX - 1 <= Days(year, month, day) <= MAX_COUNT
  {
    var y := if month <= 2 then year - 1 else year;
    var era := y / 400;
    assert 0 <= y - era * 400 < 400;
  }

  /** The first and the last day the source can count to. */
  const FIRST := Date(-25_252_734_927_764_585, 6, 7)
  const LAST := Date(25_252_734_927_766_554, 9, 25)

  /** As dates: what lies between the first and the last day that can be counted, and
      nothing else, is free of overflow. */
  lemma {:induction false} FitsBetween(date: Date)
    requires 1 <= date.m <= 12 && 1 <= date.d <= 31
    ensures NoneOverflows(date.y, date.m, date.d) <==> !date.Before(FIRST) && !LAST.Before(date)
  {
    FitsExactly(date.y, date.m, date.d);
    var counted := if date.Valid() then date else SpilledOver(date);
    FirstAndLast();
    hide NoneOverflows, Days, IsLeap;
    StrictlyIncreasing(counted, FIRST);
    StrictlyIncreasing(LAST, counted);
    if !date.Valid() {
      OverlongDaySpillsOver(date.y, date.m, date.d);
    }
  }

  /** The date that an overlong day is counted as. */
  function SpilledOver(date: Date): (other: Date)
    requires 1 <= date.m <= 12 && MonthLength(date.y, date.m) < date.d <= 31
    ensures other.Valid()
    ensures date.Before(FIRST) == other.Before(FIRST) && LAST.Before(date) == LAST.Before(other)
  {
    Date(date.y, date.m + 1, date.d - MonthLength(date.y, date.m))
  }

  lemma {:induction false} FirstAndLast()
    ensures FIRST.Valid() && FIRST.Count() == -I64_MAX - 1
    ensures LAST.Valid() && LAST.Count() == MAX_COUNT
  {
    assert FIRST.y / 400 == -63_131_837_319_412 && LAST.y / 400 == 63_131_837_319_416;
  }

  /** So no date of any year between theirs overflows. */
  lemma {:induction false} NoOverflow(year: int, month: int, day: int)
    requires FIRST.y < year < LAST.y
    requires 1 <= month <= 12 && 1 <= day <= 31
    ensures NoneOverflows(year, month, day)
  {
    FitsBetween(Date(year, month, day));
  }

  // ── The string ────────────────────────────────────────────────────────────

  predicate IsDigit(c: char) {
    '0' <= c <= '9'
  }

  /** The number a string of digits denotes. */
  function Value(s: string): int {
    if s == [] then 0 else Value(s[..|s| - 1]) * 10 + (s[|s| - 1] as int - '0' as int)
  }

  /** Rust's parse of an `i64`: an optional sign, at least one digit, in range. */
  function ParseI64(s: string): Option<int> {
    if s == [] then None
    else
      var signed := s[0] == '+' || s[0] == '-';
      var digits := if signed then s[1..] else s;
      if digits == [] || exists c :: c in digits && !IsDigit(c) then None
      else
        var n := if s[0] == '-' then -Value(digits) else Value(digits);
        if FitsI64(n) then Some(n) else None
  }

  /** The parts of `s` between its dashes. */
  function Split(s: string): (parts: seq<string>)
    ensures |parts| > 0
  {
    if s == [] then [""]
    else
      var rest := Split(s[1..]);
      if s[0] == '-' then [""] + rest else [[s[0]] + rest[0]] + rest[1..]
  }

  /** What comes of a string. A date whose count overflows 64 bits on the way has no
      outcome the source could return. */
  datatype Reading = NoDate | Counted(days: int) | Overflows

  /** `days_from_civil`: whatever follows a third part is ignored. */
  function DaysFromCivil(date: string): Reading {
    var parts := Split(date);
    if |parts| < 3 then NoDate
    else
      match (ParseI64(parts[0]), ParseI64(parts[1]), ParseI64(parts[2]))
      case (Some(y), Some(m), Some(d)) =>
        if !(1 <= m <= 12 && 1 <= d <= 31) then NoDate
        else if NoneOverflows(y, m, d) then Counted(Days(y, m, d))
        else Overflows
      case _ => NoDate
  }

  function Decimal(n: nat): string {
    var last := [('0' as int + n % 10) as char];
    if n < 10 then last else Decimal(n / 10) + last
  }

  function Padded(n: nat, width: nat): string
    decreases width - |Decimal(n)|
  {
    Zeros(if width > |Decimal(n)| then width - |Decimal(n)| else 0) + Decimal(n)
  }

  function Zeros(k: nat): string {
    seq(k, _ => '0')
  }

  /** `YYYY-MM-DD`. */
  function Render(y: nat, m: nat, d: nat): string {
    Padded(y, 4) + "-" + Padded(m, 2) + "-" + Padded(d, 2)
  }

  predicate AllDigits(s: string) {
    forall c :: c in s ==> IsDigit(c)
  }

  lemma {:induction false} DecimalValue(n: nat)
    ensures Decimal(n) != [] && AllDigits(Decimal(n)) && Value(Decimal(n)) == n
  {
    if n >= 10 {
      DecimalValue(n / 10);
      var s := Decimal(n);
      assert s[..|s| - 1] == Decimal(n / 10);
    } else {
      assert Decimal(n)[..0] == [];
    }
  }

  lemma {:induction false} LeadingZeros(k: nat, s: string)
    ensures Value(Zeros(k) + s) == Value(s)
    decreases |s|, k
  {
    var t := Zeros(k) + s;
    if s != [] {
      assert t[..|t| - 1] == Zeros(k) + s[..|s| - 1];
      LeadingZeros(k, s[..|s| - 1]);
    } else if k > 0 {
      assert t[..k - 1] == Zeros(k - 1) + s;
      LeadingZeros(k - 1, s);
    } else {
      assert t == s;
    }
  }

  lemma {:induction false} PaddedParses(n: nat, width: nat)
    ensures ParseI64(Padded(n, width)) == (if n <= I64_MAX then Some(n) else None) && '-' !in Padded(n, width)
  {
    DecimalValue(n);
    var k := if width > |Decimal(n)| then width - |Decimal(n)| else 0;
    LeadingZeros(k, Decimal(n));
    var s := Padded(n, width);
    assert AllDigits(s) by {
      assert forall i :: 0 <= i < |s| ==> s[i] == '0' || s[i] in Decimal(n);
    }
    assert IsDigit(s[0]);
  }

  lemma {:induction false} SplitAtDash(a: string, b: string)
    requires '-' !in a
    ensures Split(a + "-" + b) == [a] + Split(b)
  {
    var s := a + "-" + b;
    if a == [] {
      assert s[1..] == b;
    } else {
      assert s[1..] == a[1..] + "-" + b;
      SplitAtDash(a[1..], b);
      assert a == [a[0]] + a[1..];
    }
  }

  lemma {:induction false} SplitWhole(a: string)
    requires '-' !in a
    ensures Split(a) == [a]
  {
    if a != [] {
      SplitWhole(a[1..]);
      assert a == [a[0]] + a[1..];
    }
  }

  lemma {:induction false} SplitInThree(a: string, b: string, c: string)
    requires '-' !in a && '-' !in b && '-' !in c
    ensures Split(a + "-" + b + "-" + c) == [a, b, c]
  {
    assert a + "-" + b + "-" + c == a + "-" + (b + "-" + c);
    SplitAtDash(a, b + "-" + c);
    SplitAtDash(b, c);
    SplitWhole(c);
    assert [a] + ([b] + [c]) == [a, b, c];
  }

  /** Reading back a rendered date gives its day count through the calendar, up to the
      last day that can be counted; later ones overflow, and years of more than 64 bits
      are not read. */
  lemma {:induction false} ReadsRenderedDates(y: nat, m: nat, d: nat)
    requires 1 <= m <= 12 && 1 <= d <= 31
    ensures DaysFromCivil(Render(y, m, d))
            == if y > I64_MAX then NoDate
               else if LAST.Before(Date(y, m, d)) then Overflows
               else Counted(YearStart(y) + MonthStart(y, m) + d - 1)
  {
    var ys, ms, ds := Padded(y, 4), Padded(m, 2), Padded(d, 2);
    PaddedParses(y, 4);
    PaddedParses(m, 2);
    PaddedParses(d, 2);
    SplitInThree(ys, ms, ds);
    FormulaCountsDays(y, m, d);
    FitsBetween(Date(y, m, d));
    hide ParseI64, Padded, Split, NoneOverflows, Days, YearStart, MonthStart;
  }

  // ── Which strings are accepted ────────────────────────────────────────────

  /** `date` is three parts joined by dashes, and either ends there or goes on behind a
      third dash. */
  predicate Reads(date: string, y: string, m: string, d: string, tail: string) {
    && date == y + "-" + (m + "-" + (d + tail))
    && '-' !in y && '-' !in m && '-' !in d
    && (tail == "" || tail[0] == '-')
  }

  /** The three parts are numbers, a month and a day among them, and `n` is their count
      through the calendar. */
  ghost predicate Counts(y: string, m: string, d: string, n: int) {
    match (ParseI64(y), ParseI64(m), ParseI64(d))
    case (Some(year), Some(month), Some(day)) =>
      1 <= month <= 12 && 1 <= day <= 31 && n == YearStart(year) + MonthStart(year, month) + day - 1
    case _ => false
  }

  /** The first part ends at the first dash. */
  lemma {:induction false} FirstPart(s: string)
    ensures var parts := Split(s);
            && '-' !in parts[0] && parts[0] <= s
            && (|parts| == 1 ==> s == parts[0])
            && (|parts| > 1 ==> s[|parts[0]|..] != "" && s[|parts[0]|] == '-' && Split(s[|parts[0]| + 1..]) == parts[1..])
  {
    if s != [] && s[0] != '-' {
      FirstPart(s[1..]);
      var rest := Split(s[1..])[0];
      assert Split(s)[0] == [s[0]] + rest;
      assert s == [s[0]] + s[1..];
      if |Split(s)| > 1 {
        assert s[|rest| + 2..] == s[1..][|rest| + 1..];
      }
    } else if s != [] {
      assert s[1..] == s[|Split(s)[0]| + 1..];
    }
  }

  lemma {:induction false} CutFirst(s: string) returns (rest: string)
    requires |Split(s)| > 1
    ensures '-' !in Split(s)[0] && s == Split(s)[0] + "-" + rest && Split(rest) == Split(s)[1..]
  {
    FirstPart(s);
    var k := |Split(s)[0]|;
    rest := s[k + 1..];
    assert s == s[..k] + [s[k]] + rest;
  }

  lemma {:induction false} CutThird(s: string) returns (tail: string)
    ensures '-' !in Split(s)[0] && s == Split(s)[0] + tail && (tail == "" || tail[0] == '-')
  {
    FirstPart(s);
    tail := s[|Split(s)[0]|..];
  }

  lemma {:induction false} SplitReads(date: string) returns (tail: string)
    requires |Split(date)| >= 3
    ensures Reads(date, Split(date)[0], Split(date)[1], Split(date)[2], tail)
  {
    var afterYear := CutFirst(date);
    var afterMonth := CutFirst(afterYear);
    tail := CutThird(afterMonth);
    var y, m, d := Split(date)[0], Split(date)[1], Split(date)[2];
    assert date == y + "-" + afterYear && afterYear == m + "-" + afterMonth && afterMonth == d + tail;
  }

  lemma {:induction false} SplitTail(d: string, tail: string)
    requires '-' !in d && (tail == "" || tail[0] == '-')
    ensures Split(d + tail)[0] == d
  {
    if tail == "" {
      SplitWhole(d);
      assert d + tail == d;
    } else {
      SplitAtDash(d, tail[1..]);
      assert d + tail == d + "-" + tail[1..];
    }
  }

  lemma {:induction false} ReadsSplit(date: string, y: string, m: string, d: string, tail: string)
    requires Reads(date, y, m, d, tail)
    ensures |Split(date)| >= 3 && Split(date)[..3] == [y, m, d]
  {
    SplitAtDash(y, m + "-" + (d + tail));
    SplitAtDash(m, d + tail);
    SplitTail(d, tail);
    assert Split(date) == [y] + ([m] + Split(d + tail));
  }

  /** Exactly the strings that begin with three numbers between dashes, the second a
      month and the third at most 31, are accepted, and each with the count of that day
      through the calendar, if that is at most `MAX_COUNT`. Whatever stands behind a third
      dash is ignored. */
  lemma {:induction false} AcceptedExactly(date: string, n: int)
    ensures DaysFromCivil(date) == Counted(n)
            <==> n <= MAX_COUNT && exists y, m, d, tail :: Reads(date, y, m, d, tail) && Counts(y, m, d, n)
  {
    hide NoneOverflows, Days, ParseI64, YearStart, MonthStart;
    if DaysFromCivil(date) == Counted(n) {
      var parts := Split(date);
      var tail := SplitReads(date);
      var count := PartsCount(parts[0], parts[1], parts[2]);
      assert Counts(parts[0], parts[1], parts[2], n);
    }
    forall y, m, d, tail | n <= MAX_COUNT && Reads(date, y, m, d, tail) && Counts(y, m, d, n)
      ensures DaysFromCivil(date) == Counted(n)
    {
      ReadsSplit(date, y, m, d, tail);
      var count := PartsCount(y, m, d);
      assert Split(date)[..3][0] == y && Split(date)[..3][1] == m && Split(date)[..3][2] == d;
    }
  }

  /** And exactly those whose count is beyond `MAX_COUNT` overflow, although they read as
      dates; every other string is no date. */
  lemma {:induction false} OverflowsExactly(date: string)
    ensures DaysFromCivil(date) == Overflows
            <==> exists y, m, d, tail, n :: Reads(date, y, m, d, tail) && Counts(y, m, d, n) && n > MAX_COUNT
  {
    hide NoneOverflows, Days, ParseI64, YearStart, MonthStart;
    if DaysFromCivil(date) == Overflows {
      var parts := Split(date);
      var tail := SplitReads(date);
      var n := PartsCount(parts[0], parts[1], parts[2]);
      assert Counts(parts[0], parts[1], parts[2], n);
    }
    forall y, m, d, tail, n | Reads(date, y, m, d, tail) && Counts(y, m, d, n) && n > MAX_COUNT
      ensures DaysFromCivil(date) == Overflows
    {
      ReadsSplit(date, y, m, d, tail);
      var count := PartsCount(y, m, d);
      assert Split(date)[..3][0] == y && Split(date)[..3][1] == m && Split(date)[..3][2] == d;
    }
  }

  /** The first year that overflows in every month, read from a string of that year. */
  lemma {:induction false} OverflowWitness()
    ensures DaysFromCivil(Render(25_252_734_927_766_555, 1, 1)) == Overflows
  {
    ReadsRenderedDates(25_252_734_927_766_555, 1, 1);
  }

  /** `s` is a number: digits and nothing else, perhaps behind a plus, of value `n`. */
  ghost predicate IsNumber(s: string, n: int) {
    exists digits: string ::
      (s == digits || s == "+" + digits) && digits != "" && AllDigits(digits) && Value(digits) == n
  }

  /** What a part between dashes is read as: its number, if it is one of 64 bits. */
  lemma {:induction false} ReadsNumbers(s: string, n: int)
    requires '-' !in s
    ensures ParseI64(s) == Some(n) <==> IsNumber(s, n) && n <= I64_MAX
  {
    if ParseI64(s) == Some(n) {
      var digits := if s[0] == '+' then s[1..] else s;
      assert s == digits || s == "+" + digits;
      assert IsNumber(s, n);
    }
    forall digits: string | (s == digits || s == "+" + digits) && digits != "" && AllDigits(digits) && Value(digits) == n && n <= I64_MAX
      ensures ParseI64(s) == Some(n)
    {
      ValueNotNegative(digits);
      assert digits[0] in digits;
      assert s == "+" + digits ==> s[1..] == digits;
    }
  }

  /** A year is read without a sign in front, so it is never negative. */
  lemma {:induction false} ReadsNoNegative(s: string)
    requires '-' !in s && ParseI64(s).Some?
    ensures ParseI64(s).value >= 0
  {
    ValueNotNegative(if s[0] == '+' then s[1..] else s);
  }

  lemma {:induction false} ValueNotNegative(s: string)
    requires AllDigits(s)
    ensures Value(s) >= 0
  {
    if s != [] {
      assert IsDigit(s[|s| - 1]);
      ValueNotNegative(s[..|s| - 1]);
    }
  }

  /** The count of three parts that make a date, and when it overflows. */
  lemma {:induction false} PartsCount(y: string, m: string, d: string) returns (n: int)
    requires '-' !in y
    ensures match (ParseI64(y), ParseI64(m), ParseI64(d))
            case (Some(year), Some(month), Some(day)) =>
              1 <= month <= 12 && 1 <= day <= 31 ==>
                && n == Days(year, month, day) == YearStart(year) + MonthStart(year, month) + day - 1
                && (NoneOverflows(year, month, day) <==> n <= MAX_COUNT)
            case _ => true
  {
    hide NoneOverflows;
    match (ParseI64(y), ParseI64(m), ParseI64(d))
    case (Some(year), Some(month), Some(day)) =>
      n := Days(year, month, day);
      if 1 <= month <= 12 && 1 <= day <= 31 {
        ReadsNoNegative(y);
        FormulaCountsDays(year, month, day);
        FitsExactly(year, month, day);
      }
    case _ => n := 0;
  }
}
