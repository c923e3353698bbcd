/** Calendar dates as Python's `datetime.date` holds them (years 1 to 9999),
    day arithmetic for `date - timedelta(days=n)`, `isoformat()`, and the
    three `strptime` formats the source parses. */
module Dates {

  import opened Wrappers
  import opened Text

  datatype Date = Date(year: int, month: int, day: int)

  predicate IsLeap(y: int) { y % 4 == 0 && (y % 100 != 0 || y % 400 == 0) }

  function DaysInMonth(y: int, m: int): (n: int)
    requires 1 <= m <= 12
    ensures 28 <= n <= 31
  {
    if m == 2 then (if IsLeap(y) then 29 else 28)
    else if m == 4 || m == 6 || m == 9 || m == 11 then 30
    else 31
  }

  predicate ValidDate(d: Date) {
    1 <= d.year <= 9999 && 1 <= d.month <= 12 && 1 <= d.day <= DaysInMonth(d.year, d.month)
  }

  /** A value Python's `date` type can hold. */
  type CalendarDate = d: Date | ValidDate(d) witness Date(1970, 1, 1)

  /** Chronological order (SQLite compares the ISO texts, which agrees for these years). */
  predicate Le(a: Date, b: Date) {
    a.year < b.year || (a.year == b.year && (a.month < b.month || (a.month == b.month && a.day <= b.day)))
  }

  predicate Lt(a: Date, b: Date) { Le(a, b) && a != b }

  // ---------------------------------------------------------------------
  // Day numbers and day arithmetic

  function YearLength(y: int): int { if IsLeap(y) then 366 else 365 }

  function DaysBeforeYear(y: int): int
    decreases y
  {
    if y <= 1 then 0 else DaysBeforeYear(y - 1) + YearLength(y - 1)
  }

  function DaysBeforeMonth(y: int, m: int): int
    requires 1 <= m <= 12
  {
    if m == 1 then 0 else DaysBeforeMonth(y, m - 1) + DaysInMonth(y, m - 1)
  }

  /** Python's `date.toordinal()`: 0001-01-01 is day 1. */
  function DayNumber(d: CalendarDate): int {
    DaysBeforeYear(d.year) + DaysBeforeMonth(d.year, d.month) + d.day
  }

  lemma MonthsFillYear(y: int)
    ensures DaysBeforeMonth(y, 12) + DaysInMonth(y, 12) == YearLength(y)
  {
    var feb := DaysInMonth(y, 2);
    assert DaysBeforeMonth(y, 2) == 31;
    assert DaysBeforeMonth(y, 3) == 31 + feb;
    assert DaysBeforeMonth(y, 4) == 62 + feb;
    assert DaysBeforeMonth(y, 5) == 92 + feb;
    assert DaysBeforeMonth(y, 6) == 123 + feb;
    assert DaysBeforeMonth(y, 7) == 153 + feb;
    assert DaysBeforeMonth(y, 8) == 184 + feb;
    assert DaysBeforeMonth(y, 9) == 215 + feb;
    assert DaysBeforeMonth(y, 10) == 245 + feb;
    assert DaysBeforeMonth(y, 11) == 276 + feb;
    assert DaysBeforeMonth(y, 12) == 306 + feb;
  }

  /** The day before `d`; None before 0001-01-01 (Python raises OverflowError). */
  function PrevDay(d: CalendarDate): (r: Option<CalendarDate>)
    ensures r.Some? <==> d != Date(1, 1, 1)
    ensures r.Some? ==> Lt(r.value, d) && DayNumber(r.value) == DayNumber(d) - 1
  {
    if d.day > 1 then Some(Date(d.year, d.month, d.day - 1))
    else if d.month > 1 then Some(Date(d.year, d.month - 1, DaysInMonth(d.year, d.month - 1)))
    else if d.year > 1 then
      MonthsFillYear(d.year - 1);
      Some(Date(d.year - 1, 12, 31))
    else None
  }

  /** The day after `d`; None after 9999-12-31. */
  function NextDay(d: CalendarDate): (r: Option<CalendarDate>)
    ensures r.Some? <==> d != Date(9999, 12, 31)
    ensures r.Some? ==> Lt(d, r.value) && DayNumber(r.value) == DayNumber(d) + 1
  {
    if d.day < DaysInMonth(d.year, d.month) then Some(Date(d.year, d.month, d.day + 1))
    else if d.month < 12 then Some(Date(d.year, d.month + 1, 1))
    else if d.year < 9999 then
      MonthsFillYear(d.year);
      Some(Date(d.year + 1, 1, 1))
    else None
  }

  /** `d + timedelta(days=n)`: the date `n` days later (earlier for a negative `n`),
      or None when it falls outside years 1 to 9999. */
  function AddDays(d: CalendarDate, n: int): (r: Option<CalendarDate>)
    ensures r.Some? ==> DayNumber(r.value) == DayNumber(d) + n
    ensures r.Some? && n <= 0 ==> Le(r.value, d)
    ensures r.Some? && n >= 0 ==> Le(d, r.value)
    decreases if n < 0 then -n else n
  {
    if n == 0 then Some(d)
    else if n < 0 then
      match PrevDay(d)
      case None => None
      case Some(p) => AddDays(p, n + 1)
    else
      match NextDay(d)
      case None => None
      case Some(q) => AddDays(q, n - 1)
  }

  // ---------------------------------------------------------------------
  // Text forms

  datatype Format =
    | IsoDash     // %Y-%m-%d
    | DottedDay   // %d.%m.%Y
    | SlashedDay  // %d/%m/%Y

  function Separator(f: Format): char {
    match f
    case IsoDash => '-'
    case DottedDay => '.'
    case SlashedDay => '/'
  }

  /** The date written with zero-padded fields in the format's order. */
  function Render(d: CalendarDate, f: Format): string {
    var sep := Separator(f);
    if f == IsoDash then Padded(d.year, 4) + [sep] + Padded(d.month, 2) + [sep] + Padded(d.day, 2)
    else Padded(d.day, 2) + [sep] + Padded(d.month, 2) + [sep] + Padded(d.year, 4)
  }

  /** `date.isoformat()`. */
  function IsoFormat(d: CalendarDate): string { Render(d, IsoDash) }

  /** strptime's `%Y`: exactly four digits. */
  predicate YearField(t: string) { |t| == 4 && IsDigits(t) }

  /** strptime's `%m`: `1[0-2]|0[1-9]|[1-9]`. */
  predicate MonthField(t: string) {
    IsDigits(t) && ((|t| == 1 && t[0] != '0') || (|t| == 2 && 1 <= DigitsValue(t) <= 12))
  }

  /** strptime's `%d`: `3[01]|[12]\d|0[1-9]|[1-9]| [1-9]`. */
  predicate DayField(t: string) {
    || (IsDigits(t) && ((|t| == 1 && t[0] != '0') || (|t| == 2 && 1 <= DigitsValue(t) <= 31)))
    || (|t| == 2 && t[0] == ' ' && IsDigit(t[1]) && t[1] != '0')
  }

  function DayFieldValue(t: string): nat
    requires DayField(t)
  {
    if t[0] == ' ' then DigitValue(t[1]) else DigitsValue(t)
  }

  /** `datetime.strptime(s, fmt).date()`: the whole of `s` must be three fields
      between the format's two separators; a field value outside the calendar
      (year 0, 31 April) is a ValueError, here None. */
  function Parse(s: string, f: Format): (r: Option<CalendarDate>)
  {
    var parts := Split(s, Separator(f));
    if |parts| != 3 then None
    else
      var (yt, mt, dt) := if f == IsoDash then (parts[0], parts[1], parts[2]) else (parts[2], parts[1], parts[0]);
      if !(YearField(yt) && MonthField(mt) && DayField(dt)) then None
      else
        var d := Date(DigitsValue(yt), DigitsValue(mt), DayFieldValue(dt));
        if ValidDate(d) then Some(d) else None
  }

  /** Three separator-free pieces joined by the separator split back into them. */
  lemma Split3(a: string, b: string, c: string, sep: char)
    requires sep !in a && sep !in b && sep !in c
    ensures Split(a + [sep] + b + [sep] + c, sep) == [a, b, c]
  {
    assert a + [sep] + b + [sep] + c == a + [sep] + (b + [sep] + c);
    SplitPiece(a, sep, b + [sep] + c);
    SplitPiece(b, sep, c);
    SplitNone(c, sep);
  }

  /** Parsing reads back exactly the text `Render` writes. */
  lemma RenderParse(d: CalendarDate, f: Format)
    ensures Parse(Render(d, f), f) == Some(d)
  {
    var sep := Separator(f);
    var y, m, dd := Padded(d.year, 4), Padded(d.month, 2), Padded(d.day, 2);
    PaddedValue(d.year, 4);
    PaddedValue(d.month, 2);
    PaddedValue(d.day, 2);
    FieldsFree(y, sep);
    FieldsFree(m, sep);
    assert DayField(dd);
    FieldsFree(dd, sep);
    if f == IsoDash {
      Split3(y, m, dd, sep);
    } else {
      Split3(dd, m, y, sep);
    }
  }

  /** A string parses under at most one of the three formats, so the order in
      which a caller tries them does not change the date it gets. */
  lemma FormatsExclusive(s: string, f: Format, g: Format)
    requires Parse(s, f).Some? && Parse(s, g).Some?
    ensures f == g
  {
    if f != g {
      var parts := Split(s, Separator(f));
      var sep := Separator(g);
      assert sep != Separator(f);
      FieldsFree(parts[0], sep);
      FieldsFree(parts[1], sep);
      FieldsFree(parts[2], sep);
      assert s == parts[0] + [Separator(f)] + parts[1] + [Separator(f)] + parts[2] by {
        SplitJoin3(s, Separator(f));
      }
      assert sep !in s;
      SplitNone(s, sep);
    }
  }

  /** A date field never contains a separator. */
  lemma FieldsFree(t: string, sep: char)
    requires sep == '-' || sep == '.' || sep == '/'
    requires YearField(t) || MonthField(t) || DayField(t)
    ensures sep !in t
  {
  }

  /** Three pieces are the text with the two separators taken out. */
  lemma {:induction false} SplitJoin3(s: string, sep: char)
    requires |Split(s, sep)| == 3
    ensures var p := Split(s, sep); s == p[0] + [sep] + p[1] + [sep] + p[2]
  {
    SplitJoin(s, sep);
    var p := Split(s, sep);
    assert p[1..][1..] == p[2..] && Join(p[2..], sep) == p[2];
    assert Join(p[1..], sep) == p[1] + [sep] + p[2];
  }

  function Join(parts: seq<string>, sep: char): string
    requires |parts| >= 1
  {
    if |parts| == 1 then parts[0] else parts[0] + [sep] + Join(parts[1..], sep)
  }

  lemma {:induction false} SplitJoin(s: string, sep: char)
    ensures Join(Split(s, sep), sep) == s
  {
    if s != [] {
      SplitJoin(s[1..], sep);
      var rest := Split(s[1..], sep);
      if s[0] == sep {
        assert [""] + rest == [""] + rest;
        assert ([""] + rest)[1..] == rest;
      } else {
        var p := [[s[0]] + rest[0]] + rest[1..];
        if |rest| > 1 {
          assert p[1..] == rest[1..];
          assert Join(rest, sep) == rest[0] + [sep] + Join(rest[1..], sep);
        }
        assert s == [s[0]] + s[1..];
      }
    }
  }
}
