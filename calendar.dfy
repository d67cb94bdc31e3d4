/** The part of System.DateTime the service uses: calendar dates of the
    proleptic Gregorian calendar (years 1..9999), their order, `AddYears`,
    `DateTime.MinValue`, and culture-dependent parsing and formatting. */
module Calendar {
  import opened Primitives

  datatype Date = Date(year: int, month: int, day: int)

  /** Gregorian rule: every fourth year, except centuries not divisible by 400. */
  predicate IsLeapYear(y: int) {
    y % 4 == 0 && (y % 100 != 0 || y % 400 == 0)
  }

  function DaysInMonth(y: int, m: int): (n: int)
    requires 1 <= m <= 12
    ensures 28 <= n <= 31
    ensures n == 29 <==> m == 2 && IsLeapYear(y)
  {
    if m == 2 then (if IsLeapYear(y) then 29 else 28)
    else if m == 4 || m == 6 || m == 9 || m == 11 then 30
    else 31
  }

  predicate ValidDate(d: Date) {
    && 1 <= d.year <= 9999
    && 1 <= d.month <= 12
    && 1 <= d.day <= DaysInMonth(d.year, d.month)
  }

  /** A value a DateTime can hold (the time of day is not modelled). */
  type CalendarDate = d: Date | ValidDate(d) witness Date(1, 1, 1)

  /** `default(DateTime)`, 0001-01-01, which `DateTime.TryParse` leaves behind on failure. */
  const MinValue: CalendarDate := Date(1, 1, 1)

  /** `a < b` on DateTime values. */
  predicate Before(a: Date, b: Date) {
    || a.year < b.year
    || (a.year == b.year && a.month < b.month)
    || (a.year == b.year && a.month == b.month && a.day < b.day)
  }

  /** DateTime's `<` is a strict total order on dates. */
  lemma BeforeStrictTotalOrder(a: Date, b: Date, c: Date)
    ensures !Before(a, a)
    ensures Before(a, b) ==> !Before(b, a)
    ensures Before(a, b) && Before(b, c) ==> Before(a, c)
    ensures a != b ==> Before(a, b) || Before(b, a)
  {
  }

  /** (a.month, a.day) comes after (b.month, b.day) in the year. */
  predicate MonthDayAfter(a: Date, b: Date) {
    a.month > b.month || (a.month == b.month && a.day > b.day)
  }

  /** `d.AddYears(n)`: same month and day in year `d.year + n`; a day past the
      end of that month (only February 29 in a common year) becomes its last day. */
  function AddYears(d: CalendarDate, n: int): (r: CalendarDate)
    requires 1 <= d.year + n <= 9999
    ensures r.year == d.year + n && r.month == d.month
    ensures r.day != d.day <==> d.month == 2 && d.day == 29 && !IsLeapYear(d.year + n)
    ensures r.day != d.day ==> r.day == 28
  {
    var y := d.year + n;
    var last := DaysInMonth(y, d.month);
    Date(y, d.month, if d.day > last then last else d.day)
  }

  /** The current culture's `DateTime.TryParse` and `DateTime.ToString`. Both
      depend on culture settings outside the service, so they are parameters. */
  datatype Culture = Culture(parse: string -> Option<CalendarDate>, format: CalendarDate -> string)

  /** `DateTime.TryParse(s, out d)`: a null string never parses. */
  function TryParse(culture: Culture, s: NString): (r: Option<CalendarDate>)
    ensures s.None? ==> r.None?
    ensures s.Some? ==> r == culture.parse(s.value)
  {
    match s
    case None => None
    case Some(t) => culture.parse(t)
  }

  /** The value `TryParse` leaves in its `out` parameter: the parsed date, or MinValue. */
  function ParsedOrDefault(culture: Culture, s: NString): (d: CalendarDate)
    ensures TryParse(culture, s).None? ==> d == MinValue
    ensures TryParse(culture, s).Some? ==> Some(d) == TryParse(culture, s)
  {
    match TryParse(culture, s)
    case None => MinValue
    case Some(v) => v
  }
}
