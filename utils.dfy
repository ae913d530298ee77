// backend/utils.py: reading a CSV `calendar_month` cell into a calendar date
// and an integer cell that may carry thousands separators.
module Utils {
  import opened Results
  import opened Strings

  // ---------------------------------------------------------------------------
  // Calendar dates (Python's `datetime.date`)
  // ---------------------------------------------------------------------------

  datatype Date = Date(year: int, month: int, day: int)

  const MinYear := 1
  const MaxYear := 9999

  predicate IsLeap(y: int)
  {
    y % 4 == 0 && (y % 100 != 0 || y % 400 == 0)
  }

  function DaysInMonth(y: int, m: int): int
    requires 1 <= m <= 12
  {
    if m == 2 then (if IsLeap(y) then 29 else 28)
    else if m == 4 || m == 6 || m == 9 || m == 11 then 30
    else 31
  }

  predicate ValidDate(y: int, m: int, d: int)
  {
    MinYear <= y <= MaxYear && 1 <= m <= 12 && 1 <= d <= DaysInMonth(y, m)
  }

  /** The checks `date(year, month, day)` makes, in its order. */
  datatype DateError = YearOutOfRange | MonthOutOfRange | DayOutOfRange

  function MakeDate(y: int, m: int, d: int): (r: Result<Date, DateError>)
    ensures r.Ok? <==> ValidDate(y, m, d)
    ensures r.Ok? ==> r.value == Date(y, m, d)
    ensures r == Err(YearOutOfRange) <==> !(MinYear <= y <= MaxYear)
  {
    if !(MinYear <= y <= MaxYear) then Err(YearOutOfRange)
    else if !(1 <= m <= 12) then Err(MonthOutOfRange)
    else if !(1 <= d <= DaysInMonth(y, m)) then Err(DayOutOfRange)
    else Ok(Date(y, m, d))
  }

  /** Chronological order on dates (what `ORDER BY calendar_month` sorts by). */
  predicate DateLe(a: Date, b: Date)
  {
    a.year < b.year || (a.year == b.year && (a.month < b.month || (a.month == b.month && a.day <= b.day)))
  }

  // ---------------------------------------------------------------------------
  // datetime.strptime(s, "%Y-%m-%d")
  //
  // Python compiles the format to `(\d\d\d\d)-(1[0-2]|0[1-9]|[1-9])-
  // (3[01]|[12]\d|0[1-9]|[1-9]| [1-9])`, matches it at the start of the text,
  // and then refuses any text left over.  Trying the alternatives in order is
  // the regular expression's own outcome: when an alternative of %m matched
  // and the next character is not `-`, no later alternative can be followed
  // by `-` either, and %d is the last item so its first match is final.
  // ---------------------------------------------------------------------------

  /** The three ways `strptime` raises `ValueError` for this format. */
  datatype IsoError = DoesNotMatch | UnconvertedData | OutOfRange(cause: DateError)

  /** `%m` at position `i`: its value and the position after it. */
  function MonthAt(s: string, i: nat): (r: Option<(int, nat)>)
    ensures r.Some? ==> 1 <= r.value.0 <= 12 && i < r.value.1 <= |s| && IsDigit(s[r.value.1 - 1])
  {
    if i + 1 < |s| && s[i] == '1' && '0' <= s[i + 1] <= '2' then Some((10 + DigitValue(s[i + 1]), i + 2))
    else if i + 1 < |s| && s[i] == '0' && '1' <= s[i + 1] <= '9' then Some((DigitValue(s[i + 1]), i + 2))
    else if i < |s| && '1' <= s[i] <= '9' then Some((DigitValue(s[i]), i + 1))
    else None
  }

  /** `%d` at position `i`: its value and the position after it. */
  function DayAt(s: string, i: nat): (r: Option<(int, nat)>)
    ensures r.Some? ==> 1 <= r.value.0 <= 31 && i < r.value.1 <= |s| && IsDigit(s[r.value.1 - 1])
  {
    if i + 1 < |s| && s[i] == '3' && '0' <= s[i + 1] <= '1' then Some((30 + DigitValue(s[i + 1]), i + 2))
    else if i + 1 < |s| && '1' <= s[i] <= '2' && IsDigit(s[i + 1]) then Some((10 * DigitValue(s[i]) + DigitValue(s[i + 1]), i + 2))
    else if i + 1 < |s| && s[i] == '0' && '1' <= s[i + 1] <= '9' then Some((DigitValue(s[i + 1]), i + 2))
    else if i < |s| && '1' <= s[i] <= '9' then Some((DigitValue(s[i]), i + 1))
    else if i + 1 < |s| && s[i] == ' ' && '1' <= s[i + 1] <= '9' then Some((DigitValue(s[i + 1]), i + 2))
    else None
  }

  function StrptimeIso(s: string): (r: Result<Date, IsoError>)
    ensures r.Ok? ==> ValidDate(r.value.year, r.value.month, r.value.day)
    ensures r.Ok? ==> 8 <= |s| <= 10 && IsDigit(s[0]) && IsDigit(s[|s| - 1])
  {
    if |s| < 5 || !AllDigits(s[..4]) || s[4] != '-' then Err(DoesNotMatch)
    else
      match MonthAt(s, 5)
      case None => Err(DoesNotMatch)
      case Some((m, j)) =>
        if j >= |s| || s[j] != '-' then Err(DoesNotMatch)
        else
          match DayAt(s, j + 1)
          case None => Err(DoesNotMatch)
          case Some((d, e)) =>
            if e != |s| then Err(UnconvertedData)
            else
              match MakeDate(DigitsValue(s[..4]), m, d)
              case Ok(date) => Ok(date)
              case Err(c) => Err(OutOfRange(c))
  }

  /** `date.isoformat()`-style rendering: four-digit year, two-digit month and day. */
  function Pad2(n: nat): (s: string)
    requires n < 100
    ensures |s| == 2 && AllDigits(s)
  {
    [DigitChar(n / 10), DigitChar(n % 10)]
  }

  function Pad4(n: nat): (s: string)
    requires n < 10000
    ensures |s| == 4 && AllDigits(s)
  {
    Pad2(n / 100) + Pad2(n % 100)
  }

  function IsoFormat(d: Date): string
    requires ValidDate(d.year, d.month, d.day)
  {
    Pad4(d.year) + "-" + Pad2(d.month) + "-" + Pad2(d.day)
  }

  lemma Pad2Value(n: nat)
    requires n < 100
    ensures DigitsValue(Pad2(n)) == n
  {
    DigitCharValue(n / 10);
    DigitCharValue(n % 10);
    DigitsValueSnoc([], DigitChar(n / 10));
    DigitsValueSnoc([DigitChar(n / 10)], DigitChar(n % 10));
  }

  lemma Pad4Value(n: nat)
    requires n < 10000
    ensures DigitsValue(Pad4(n)) == n
  {
    var hi, lo := Pad2(n / 100), Pad2(n % 100);
    Pad2Value(n / 100);
    Pad2Value(n % 100);
    DigitsValueSnoc(hi, lo[0]);
    DigitsValueSnoc(hi + [lo[0]], lo[1]);
    assert hi + lo == hi + [lo[0]] + [lo[1]];
    assert DigitsValue(lo) == DigitValue(lo[0]) * 10 + DigitValue(lo[1]) by {
      DigitsValueSnoc([], lo[0]);
      DigitsValueSnoc([lo[0]], lo[1]);
      assert lo == [lo[0]] + [lo[1]];
    }
  }

  /** Every valid date, written the ISO way, reads back as itself. */
  lemma IsoRoundTrip(d: Date)
    requires ValidDate(d.year, d.month, d.day)
    ensures StrptimeIso(IsoFormat(d)) == Ok(d)
  {
    var s := IsoFormat(d);
    assert s[..4] == Pad4(d.year);
    Pad4Value(d.year);
    assert s[4] == '-' && s[7] == '-';
    assert s[5..7] == Pad2(d.month) && s[8..10] == Pad2(d.day);
    assert s[5] == DigitChar(d.month / 10) && s[6] == DigitChar(d.month % 10);
    assert s[8] == DigitChar(d.day / 10) && s[9] == DigitChar(d.day % 10);
    assert MonthAt(s, 5) == Some((d.month, 7));
    assert DayAt(s, 8) == Some((d.day, 10));
  }

  /** The format is lenient inside: one-digit months and days, and a space-padded day. */
  lemma IsoAcceptsShortForms()
    ensures StrptimeIso("2024-1-5") == Ok(Date(2024, 1, 5))
    ensures StrptimeIso("2024-01- 5") == Ok(Date(2024, 1, 5))
    ensures StrptimeIso("2024-02-30") == Err(OutOfRange(DayOutOfRange))
    ensures StrptimeIso("2024-01-011") == Err(UnconvertedData)
  {
    assert "2024-1-5"[..4] == "2024";
    assert "2024-01- 5"[..4] == "2024";
    assert "2024-02-30"[..4] == "2024";
    assert "2024-01-011"[..4] == "2024";
    assert DigitsValue("2024") == 2024 by {
      assert "2024"[..3] == "202" && "202"[..2] == "20" && "20"[..1] == "2" && "2"[..0] == "";
    }
  }

  /** Text with whitespace at either end never parses, so strict upload mode is not whitespace tolerant. */
  lemma IsoRejectsSurroundingSpace(s: string)
    requires |s| > 0 && (IsSpace(Python, s[0]) || IsSpace(Python, s[|s| - 1]))
    ensures StrptimeIso(s).Err?
  {
  }

  // ---------------------------------------------------------------------------
  // parse_calendar_month
  // ---------------------------------------------------------------------------

  /** The groups of `^(\d{2})/(\d{2})-(\d{2})/(\d{2})(?:\s+(\d{4}))?$`. */
  datatype RangeParts = RangeParts(startMonth: int, startDay: int, endMonth: int, endDay: int, year: Option<int>)

  predicate TwoDigitsAt(s: string, i: nat)
  {
    i + 1 < |s| && IsDigit(s[i]) && IsDigit(s[i + 1])
  }

  function TwoDigitsValue(s: string, i: nat): int
    requires TwoDigitsAt(s, i)
  {
    10 * DigitValue(s[i]) + DigitValue(s[i + 1])
  }

  /**
   * Matching the range pattern against text that has already been stripped
   * (so the pattern's `$`, which also allows one trailing newline, is only
   * the end of the text).  `\s+` and `\d{4}` never overlap, so the year part
   * is "one or more whitespace characters, then exactly four digits".
   */
  function RangeMatch(s: string): (r: Option<RangeParts>)
    ensures r.Some? ==> |s| >= 11 && s[2] == '/' && s[5] == '-' && s[8] == '/'
    ensures r.Some? && r.value.year.None? ==> |s| == 11
    ensures r.Some? && r.value.year.Some? ==> 0 <= r.value.year.value <= 9999
  {
    if |s| < 11 || !TwoDigitsAt(s, 0) || s[2] != '/' || !TwoDigitsAt(s, 3) || s[5] != '-'
       || !TwoDigitsAt(s, 6) || s[8] != '/' || !TwoDigitsAt(s, 9)
    then None
    else
      match YearSuffix(s[11..])
      case None => None
      case Some(year) =>
        Some(RangeParts(TwoDigitsValue(s, 0), TwoDigitsValue(s, 3), TwoDigitsValue(s, 6), TwoDigitsValue(s, 9), year))
  }

  /** `(?:\s+(\d{4}))?$`: nothing at all, or whitespace followed by exactly four digits. */
  function YearSuffix(rest: string): (r: Option<Option<int>>)
    ensures r == Some(None) <==> rest == []
    ensures r.Some? && r.value.Some? ==> 0 <= r.value.value <= 9999
  {
    if rest == [] then Some(None)
    else
      var digits := TrimStart(Python, rest);
      if |digits| < |rest| && |digits| == 4 && AllDigits(digits) then
        FourDigitsBound(digits);
        Some(Some(DigitsValue(digits)))
      else None
  }

  lemma YearSuffixOf(y: nat)
    requires y <= 9999
    ensures YearSuffix(" " + Pad4(y)) == Some(Some(y))
  {
    TrimStartPadded(Python, " ", Pad4(y));
    TrimStartFixed(Python, Pad4(y));
    Pad4Value(y);
  }

  lemma FourDigitsBound(s: string)
    requires |s| == 4 && AllDigits(s)
    ensures DigitsValue(s) <= 9999
  {
    DigitsValueBound(s);
  }

  /** Why `parse_calendar_month` raises `ValueError`. */
  datatype CalendarError =
    | Unrecognized(text: string)
    | MissingYear(text: string)
    | InvalidDate(year: int, month: int, day: int, cause: DateError)

  /**
   * parse_calendar_month(raw, default_year): strip, then ISO `YYYY-MM-DD`,
   * then `MM/DD-MM/DD[ YYYY]` giving the first day of the range (the end of
   * the range is read but never checked), with the year falling back to
   * `default_year`.
   */
  function ParseCalendarMonth(raw: string, defaultYear: Option<int>): (r: Result<Date, CalendarError>)
    ensures r.Ok? ==> ValidDate(r.value.year, r.value.month, r.value.day)
    ensures r.Err? && r.error.Unrecognized? <==>
      StrptimeIso(Trim(Python, raw)).Err? && RangeMatch(Trim(Python, raw)).None?
    ensures r.Err? && r.error.MissingYear? ==> defaultYear.None? && RangeMatch(Trim(Python, raw)).Some?
  {
    var s := Trim(Python, raw);
    match StrptimeIso(s)
    case Ok(d) => Ok(d)
    case Err(_) =>
      match RangeMatch(s)
      case None => Err(Unrecognized(s))
      case Some(p) =>
        if p.year.None? && defaultYear.None? then Err(MissingYear(s))
        else
          var y := if p.year.Some? then p.year.value else defaultYear.value;
          match MakeDate(y, p.startMonth, p.startDay)
          case Ok(d) => Ok(d)
          case Err(c) => Err(InvalidDate(y, p.startMonth, p.startDay, c))
  }

  /** Surrounding whitespace is irrelevant: the value is stripped before either format is tried. */
  lemma CalendarMonthIgnoresSurroundingSpace(raw: string, defaultYear: Option<int>)
    ensures ParseCalendarMonth(raw, defaultYear) == ParseCalendarMonth(Trim(Python, raw), defaultYear)
  {
    TrimIdempotent(Python, raw);
  }

  /** An ISO date is read as itself, whatever the default year, even padded with whitespace. */
  lemma CalendarMonthIso(d: Date, pad: string, defaultYear: Option<int>)
    requires ValidDate(d.year, d.month, d.day)
    requires forall k | 0 <= k < |pad| :: IsSpace(Python, pad[k])
    ensures ParseCalendarMonth(pad + IsoFormat(d) + pad, defaultYear) == Ok(d)
  {
    var s := IsoFormat(d);
    TrimPadded(Python, pad, s, pad);
    IsoRoundTrip(d);
  }

  /** `MM/DD-MM/DD` written with two-digit fields. */
  function RangeText(month: nat, day: nat, endMonth: nat, endDay: nat): (r: string)
    requires month < 100 && day < 100 && endMonth < 100 && endDay < 100
    ensures |r| == 11 && r[2] == '/' && r[5] == '-' && r[8] == '/'
    ensures TwoDigitsAt(r, 0) && TwoDigitsValue(r, 0) == month
    ensures TwoDigitsAt(r, 3) && TwoDigitsValue(r, 3) == day
    ensures TwoDigitsAt(r, 6) && TwoDigitsAt(r, 9)
  {
    DigitCharValue(month / 10);
    DigitCharValue(month % 10);
    DigitCharValue(day / 10);
    DigitCharValue(day % 10);
    DigitCharValue(endMonth / 10);
    DigitCharValue(endMonth % 10);
    DigitCharValue(endDay / 10);
    DigitCharValue(endDay % 10);
    [DigitChar(month / 10), DigitChar(month % 10), '/', DigitChar(day / 10), DigitChar(day % 10), '-',
     DigitChar(endMonth / 10), DigitChar(endMonth % 10), '/', DigitChar(endDay / 10), DigitChar(endDay % 10)]
  }

  /** A slash where the year's digits should be: never an ISO date. */
  lemma IsoNeedsFourDigitYear(s: string)
    requires |s| >= 3 && s[2] == '/'
    ensures StrptimeIso(s).Err?
  {
    if |s| >= 5 {
      assert !IsDigit(s[..4][2]);
    }
  }

  lemma RangeMatchWithYear(r: string, y: nat)
    requires |r| == 11 && r[2] == '/' && r[5] == '-' && r[8] == '/'
    requires TwoDigitsAt(r, 0) && TwoDigitsAt(r, 3) && TwoDigitsAt(r, 6) && TwoDigitsAt(r, 9)
    requires y <= 9999
    ensures RangeMatch(r + " " + Pad4(y)) == Some(RangeParts(TwoDigitsValue(r, 0), TwoDigitsValue(r, 3), TwoDigitsValue(r, 6), TwoDigitsValue(r, 9), Some(y)))
  {
    var s := r + " " + Pad4(y);
    forall k | 0 <= k < 11 ensures s[k] == r[k] { }
    assert s[11..] == " " + Pad4(y);
    YearSuffixOf(y);
  }

  /** `MM/DD-MM/DD YYYY` reads as the first day of the range in that year, whatever the end of the range says. */
  lemma CalendarMonthRangeWithYear(d: Date, endMonth: nat, endDay: nat, defaultYear: Option<int>)
    requires ValidDate(d.year, d.month, d.day) && endMonth < 100 && endDay < 100
    ensures ParseCalendarMonth(RangeText(d.month, d.day, endMonth, endDay) + " " + Pad4(d.year), defaultYear) == Ok(d)
  {
    var r := RangeText(d.month, d.day, endMonth, endDay);
    var s := r + " " + Pad4(d.year);
    assert s[2] == '/' && IsDigit(s[0]) && IsDigit(s[|s| - 1]);
    IsoNeedsFourDigitYear(s);
    TrimFixed(Python, s);
    RangeMatchWithYear(r, d.year);
  }

  /** `MM/DD-MM/DD` without a year needs the default year, and takes it when given. */
  lemma CalendarMonthRangeWithoutYear(month: nat, day: nat, endMonth: nat, endDay: nat, defaultYear: Option<int>)
    requires month < 100 && day < 100 && endMonth < 100 && endDay < 100
    ensures var s := RangeText(month, day, endMonth, endDay);
      ParseCalendarMonth(s, defaultYear) ==
        if defaultYear.None? then Err(MissingYear(s))
        else if ValidDate(defaultYear.value, month, day) then Ok(Date(defaultYear.value, month, day))
        else Err(InvalidDate(defaultYear.value, month, day, MakeDate(defaultYear.value, month, day).error))
  {
    var s := RangeText(month, day, endMonth, endDay);
    IsoNeedsFourDigitYear(s);
    TrimFixed(Python, s);
    assert s[11..] == [];
  }

  // ---------------------------------------------------------------------------
  // int(s) and parse_int_field
  // ---------------------------------------------------------------------------

  /** Decimal digits with single underscores between digits, as `int()` accepts them. */
  predicate UnderscoredDigits(b: string)
  {
    |b| >= 1 && IsDigit(b[0]) && IsDigit(b[|b| - 1])
    && (forall k | 0 <= k < |b| :: IsDigit(b[k]) || b[k] == '_')
    && (forall k | 0 <= k < |b| - 1 :: !(b[k] == '_' && b[k + 1] == '_'))
  }

  lemma DigitsWithoutUnderscores(b: string)
    requires UnderscoredDigits(b)
    ensures AllDigits(RemoveAll(b, '_'))
  {
    var r := RemoveAll(b, '_');
    RemoveUnderscoresKeepsDigits(b);
  }

  lemma {:induction false} RemoveUnderscoresKeepsDigits(b: string)
    requires forall k | 0 <= k < |b| :: IsDigit(b[k]) || b[k] == '_'
    ensures AllDigits(RemoveAll(b, '_'))
    decreases |b|
  {
    if b != [] {
      RemoveUnderscoresKeepsDigits(b[1..]);
    }
  }

  /** Python's `int(s)` for base 10: surrounding whitespace, an optional sign, digit groups joined by single underscores. */
  function PyInt(s: string): (r: Option<int>)
  {
    var t := Trim(Python, s);
    if t == [] then None
    else
      var neg := t[0] == '-';
      var body := if t[0] == '-' || t[0] == '+' then t[1..] else t;
      if !UnderscoredDigits(body) then None
      else
        DigitsWithoutUnderscores(body);
        var v: int := DigitsValue(RemoveAll(body, '_'));
        Some(if neg then -v else v)
  }

  lemma PyIntOfRendering(n: int)
    ensures PyInt(IntToString(n)) == Some(n)
  {
    var s := IntToString(n);
    var m: nat := if n < 0 then -n else n;
    var digits := NatToString(m);
    RenderingIsUnderscoredDigits(digits);
    NatToStringRoundTrip(m);
    RenderingUntrimmed(n);
    if n < 0 {
      assert s[1..] == digits;
    }
  }

  /** A rendered number has no surrounding whitespace. */
  lemma RenderingUntrimmed(n: int)
    ensures Trim(Python, IntToString(n)) == IntToString(n)
  {
    var s := IntToString(n);
    assert s[0] == '-' || IsDigit(s[0]);
    assert IsDigit(s[|s| - 1]);
    TrimFixed(Python, s);
  }

  /** A run of digits is accepted by `int()` as it stands, with no underscore to drop. */
  lemma RenderingIsUnderscoredDigits(digits: string)
    requires |digits| >= 1 && AllDigits(digits)
    ensures UnderscoredDigits(digits) && RemoveAll(digits, '_') == digits
  {
    forall k | 0 <= k < |digits|
      ensures digits[k] != '_'
    {
      assert IsDigit(digits[k]);
    }
  }

  datatype IntFieldError = InvalidInteger(fieldName: string, raw: Option<string>)

  /**
   * parse_int_field(raw, field_name): a missing cell or an empty one counts
   * as 0; otherwise whitespace is stripped, every comma is dropped and the
   * rest must be a Python integer.
   */
  function ParseIntField(raw: Option<string>, fieldName: string): (r: Result<int, IntFieldError>)
    ensures r.Err? ==> r.error == InvalidInteger(fieldName, raw)
  {
    var value := RemoveAll(Trim(Python, raw.GetOr("")), ',');
    if value == "" then Ok(0)
    else
      match PyInt(value)
      case Some(n) => Ok(n)
      case None => Err(InvalidInteger(fieldName, raw))
  }

  /** An absent cell, or one holding only whitespace, is zero. */
  lemma IntFieldBlankIsZero(raw: Option<string>, fieldName: string)
    requires raw.Some? ==> forall k | 0 <= k < |raw.value| :: IsSpace(Python, raw.value[k])
    ensures ParseIntField(raw, fieldName) == Ok(0)
  {
    TrimEmptyIff(Python, raw.GetOr(""));
  }

  /** A cell of commas only, even with whitespace around, is zero. */
  lemma IntFieldCommasIsZero(pad: string, commas: string, fieldName: string)
    requires forall k | 0 <= k < |pad| :: IsSpace(Python, pad[k])
    requires |commas| > 0 && forall k | 0 <= k < |commas| :: commas[k] == ','
    ensures ParseIntField(Some(pad + commas + pad), fieldName) == Ok(0)
  {
    TrimPadded(Python, pad, commas, pad);
    OnlyCommas(commas);
  }

  lemma {:induction false} OnlyCommas(t: string)
    requires forall k | 0 <= k < |t| :: t[k] == ','
    ensures RemoveAll(t, ',') == ""
    decreases |t|
  {
    if t != [] {
      OnlyCommas(t[1..]);
    }
  }

  /** Every integer, written out in decimal, reads back as itself. */
  lemma IntFieldRoundTrip(n: int, fieldName: string)
    ensures ParseIntField(Some(IntToString(n)), fieldName) == Ok(n)
  {
    var s := IntToString(n);
    var digits := if n < 0 then NatToString(-n) else NatToString(n);
    assert s[0] == '-' || IsDigit(s[0]);
    TrimFixed(Python, s);
    assert ',' !in s by {
      if n < 0 { assert s == "-" + digits; }
    }
    PyIntOfRendering(n);
  }

  /**
   * Thousands separators anywhere among the digits are ignored, and so is
   * whitespace around the cell: `" 1,313 "` reads as 1313.
   */
  lemma IntFieldIgnoresCommas(pad: string, s: string, n: int, fieldName: string)
    requires forall k | 0 <= k < |pad| :: IsSpace(Python, pad[k])
    requires HasNoSpace(Python, s) && RemoveAll(s, ',') == IntToString(n)
    ensures ParseIntField(Some(pad + s + pad), fieldName) == Ok(n)
  {
    assert Some(pad + s + pad).GetOr("") == pad + s + pad;
    TrimPadded(Python, pad, s, pad);
    PyIntOfRendering(n);
  }

  /** Text that is not an integer is refused. */
  lemma IntFieldRejectsLetters()
    ensures ParseIntField(Some("12a"), "saves") == Err(InvalidInteger("saves", Some("12a")))
  {
    assert Some("12a").GetOr("") == "12a";
    assert Trim(Python, "12a") == "12a" by { TrimFixed(Python, "12a"); }
    assert RemoveAll("12a", ',') == "12a";
    assert PyInt("12a") == None by { assert !UnderscoredDigits("12a"); }
  }

  /** Commas around inner whitespace leave the whitespace, which `int()` strips to nothing and refuses. */
  lemma IntFieldRejectsSpacedCommas()
    ensures ParseIntField(Some(", ,"), "saves") == Err(InvalidInteger("saves", Some(", ,")))
  {
    assert Some(", ,").GetOr("") == ", ,";
    assert Trim(Python, ", ,") == ", ," by { TrimFixed(Python, ", ,"); }
    assert RemoveAll(", ,", ',') == " ";
    assert PyInt(" ") == None by { TrimStartAllSpace(Python, " "); }
  }
}
