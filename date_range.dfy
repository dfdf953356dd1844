/**
 * `parse_date_range`: a date-range expression to an interval of two local
 * midnights rendered as `YYYY-MM-DDT00:00:00.000/YYYY-MM-DDT00:00:00.000`.
 *
 * The date parser follows `datetime.strptime(s, "%Y-%m-%d")`: exactly four
 * year digits, a month written 1..9, 01..09 or 10..12, a day written 1..9,
 * 01..09, 10..31 or " 1".." 9", nothing after the day, and a real calendar date.
 */
module DateRange {
  import opened Wrappers
  import opened Errors
  import opened Decimal
  import opened Calendar

  // ---------------------------------------------------------------- splitting

  /** Index of the first occurrence of c in s. */
  function IndexOf(s: string, c: char): (i: nat)
    requires c in s
    ensures i < |s| && s[i] == c && c !in s[..i]
  {
    if s[0] == c then 0 else 1 + IndexOf(s[1..], c)
  }

  /** `s.split(sep)`: the pieces between occurrences of sep, in order. */
  function Split(s: string, sep: char): (parts: seq<string>)
    ensures |parts| >= 1
    decreases |s|
  {
    if sep !in s then [s]
    else
      var i := IndexOf(s, sep);
      [s[..i]] + Split(s[i + 1..], sep)
  }

  /** A string splits into exactly two pieces iff it holds exactly one separator. */
  lemma SplitTwo(s: string, sep: char)
    requires sep in s
    ensures |Split(s, sep)| == 2 <==> sep !in s[IndexOf(s, sep) + 1..]
    ensures |Split(s, sep)| == 2 ==>
      var i := IndexOf(s, sep);
      Split(s, sep) == [s[..i], s[i + 1..]]
  {
  }

  /** Splitting a + [sep] + b where neither side holds sep gives back [a, b]. */
  lemma SplitJoin(a: string, b: string, sep: char)
    requires sep !in a && sep !in b
    ensures Split(a + [sep] + b, sep) == [a, b]
  {
    var s := a + [sep] + b;
    assert s[|a|] == sep;
    IndexOfAfter(a, b, sep);
    assert s[..|a|] == a && s[|a| + 1..] == b;
  }

  lemma IndexOfAfter(a: string, b: string, sep: char)
    requires sep !in a
    ensures sep in a + [sep] + b && IndexOf(a + [sep] + b, sep) == |a|
  {
    var s := a + [sep] + b;
    assert s[|a|] == sep;
  }

  // ---------------------------------------------------------------- strptime

  /** The month field of `%m`: 1..9, 01..09 or 10..12. */
  function MonthToken(s: string): Option<int>
  {
    if |s| == 1 && '1' <= s[0] <= '9' then Some(DigitValue(s[0]))
    else if |s| == 2 && s[0] == '0' && '1' <= s[1] <= '9' then Some(DigitValue(s[1]))
    else if |s| == 2 && s[0] == '1' && '0' <= s[1] <= '2' then Some(10 + DigitValue(s[1]))
    else None
  }

  /** The day field of `%d`: 1..9, 01..09, 10..29, 30, 31 or a space and 1..9. */
  function DayToken(s: string): Option<int>
  {
    if |s| == 1 && '1' <= s[0] <= '9' then Some(DigitValue(s[0]))
    else if |s| == 2 && (s[0] == '0' || s[0] == ' ') && '1' <= s[1] <= '9' then Some(DigitValue(s[1]))
    else if |s| == 2 && '1' <= s[0] <= '2' && IsDigit(s[1]) then Some(10 * DigitValue(s[0]) + DigitValue(s[1]))
    else if |s| == 2 && s[0] == '3' && '0' <= s[1] <= '1' then Some(30 + DigitValue(s[1]))
    else None
  }

  /** `datetime.strptime(s, "%Y-%m-%d")`, None where Python raises ValueError. */
  function ParseYmd(s: string): (r: Option<Date>)
    ensures r.Some? ==> ValidDate(r.value)
  {
    if |s| < 5 || !AllDigits(s[..4]) || s[4] != '-' || '-' !in s[5..] then None
    else
      var t := s[5..];
      var k := IndexOf(t, '-');
      var m := MonthToken(t[..k]);
      var d := DayToken(t[k + 1..]);
      if m.None? || d.None? then None
      else
        var date := Date(Value(s[..4]), m.value, d.value);
        if ValidDate(date) then Some(date) else None
  }

  // ---------------------------------------------------------------- rendering

  /** `date.isoformat()` of the date part: `YYYY-MM-DD`. */
  function IsoDate(d: Date): (s: string)
    requires ValidDate(d)
    ensures |s| == 10 && '/' !in s
  {
    Pad4(d.year) + "-" + Pad2(d.month) + "-" + Pad2(d.day)
  }

  /** Midnight of d, `isoformat()` plus the literal ".000". */
  function IsoMidnight(d: Date): (s: string)
    requires ValidDate(d)
    ensures |s| == 23 && '/' !in s
  {
    IsoDate(d) + "T00:00:00" + ".000"
  }

  /** The two midnights joined by "/". */
  function Render(start: Date, end: Date): string
    requires ValidDate(start) && ValidDate(end)
  {
    IsoMidnight(start) + "/" + IsoMidnight(end)
  }

  /** `%m` reads a zero-padded month back. */
  lemma MonthTokenPad(m: int)
    requires 1 <= m <= 12
    ensures MonthToken(Pad2(m)) == Some(m)
  {
    var s := Pad2(m);
    assert s[0] == DigitChar(m / 10) && s[1] == DigitChar(m % 10);
  }

  /** `%d` reads a zero-padded day back. */
  lemma DayTokenPad(d: int)
    requires 1 <= d <= 31
    ensures DayToken(Pad2(d)) == Some(d)
  {
    var s := Pad2(d);
    assert s[0] == DigitChar(d / 10) && s[1] == DigitChar(d % 10);
  }

  /** The month and day fields of `MM-DD` are found at the first "-". */
  lemma MonthDaySplit(m: string, dd: string)
    requires |m| == 2 && AllDigits(m) && |dd| == 2
    ensures var t := m + "-" + dd; '-' in t && IndexOf(t, '-') == 2 && t[..2] == m && t[3..] == dd
  {
    var t := m + "-" + dd;
    assert t[2] == '-';
    assert IsDigit(t[0]) && IsDigit(t[1]);
  }

  /** strptime reads back every date isoformat writes. */
  lemma ParseIsoDate(d: Date)
    requires ValidDate(d)
    ensures ParseYmd(IsoDate(d)) == Some(d)
  {
    var s := IsoDate(d);
    var y, m, dd := Pad4(d.year), Pad2(d.month), Pad2(d.day);
    assert s == y + "-" + (m + "-" + dd);
    assert s[..4] == y && s[4] == '-' && s[5..] == m + "-" + dd;
    MonthDaySplit(m, dd);
    Pad4Value(d.year);
    MonthTokenPad(d.month);
    DayTokenPad(d.day);
  }

  /** Every way `%m` may write month m: zero-padded, or as a single digit below 10. */
  function MonthSpellings(m: int): set<string>
    requires 1 <= m <= 12
  {
    {Pad2(m)} + (if m < 10 then {NatToString(m)} else {})
  }

  /** Every way `%d` may write day d: zero-padded, or below 10 as one digit or a space and one digit. */
  function DaySpellings(d: int): set<string>
    requires 1 <= d <= 31
  {
    {Pad2(d)} + (if d < 10 then {NatToString(d), " " + NatToString(d)} else {})
  }

  /** Every text that `strptime(s, "%Y-%m-%d")` reads as the date d. */
  function Spellings(d: Date): set<string>
    requires ValidDate(d)
  {
    set m, dd | m in MonthSpellings(d.month) && dd in DaySpellings(d.day) :: Pad4(d.year) + "-" + m + "-" + dd
  }

  /** The month field reads m exactly when it is one of m's spellings. */
  lemma MonthTokenSpellings(x: string, m: int)
    requires 1 <= m <= 12
    ensures MonthToken(x) == Some(m) <==> x in MonthSpellings(m)
  {
    if MonthToken(x) == Some(m) {
      MonthTokenSpelled(x);
    }
    if x in MonthSpellings(m) {
      MonthSpellingRead(x, m);
    }
  }

  lemma MonthTokenSpelled(x: string)
    requires MonthToken(x).Some?
    ensures 1 <= MonthToken(x).value <= 12 && x in MonthSpellings(MonthToken(x).value)
  {
    var m := MonthToken(x).value;
    if |x| == 1 {
      SingleDigit(x);
    } else if x[0] == '0' {
      assert m == DigitValue(x[1]) && m / 10 == 0 && m % 10 == m;
      TwoDigits(x, m);
    } else {
      assert m == 10 + DigitValue(x[1]) && m / 10 == 1 && m % 10 == DigitValue(x[1]);
      TwoDigits(x, m);
    }
  }

  lemma MonthSpellingRead(x: string, m: int)
    requires 1 <= m <= 12 && x in MonthSpellings(m)
    ensures MonthToken(x) == Some(m)
  {
    if x == Pad2(m) {
      MonthTokenPad(m);
    } else {
      assert NatToString(m) == [DigitChar(m)];
    }
  }

  /** The day field reads d exactly when it is one of d's spellings. */
  lemma DayTokenSpellings(x: string, d: int)
    requires 1 <= d <= 31
    ensures DayToken(x) == Some(d) <==> x in DaySpellings(d)
  {
    if DayToken(x) == Some(d) {
      DayTokenSpelled(x);
    }
    if x in DaySpellings(d) {
      DaySpellingRead(x, d);
    }
  }

  lemma DayTokenSpelled(x: string)
    requires DayToken(x).Some?
    ensures 1 <= DayToken(x).value <= 31 && x in DaySpellings(DayToken(x).value)
  {
    var d := DayToken(x).value;
    if |x| == 1 {
      SingleDigit(x);
    } else if x[0] == ' ' {
      assert d == DigitValue(x[1]) && 1 <= d <= 9;
      DigitRoundTrip(x[1]);
      assert NatToString(d) == [DigitChar(d)];
      assert x == " " + NatToString(d);
    } else if x[0] == '0' {
      assert d == DigitValue(x[1]) && d / 10 == 0 && d % 10 == d;
      TwoDigits(x, d);
    } else {
      assert d == 10 * DigitValue(x[0]) + DigitValue(x[1]);
      assert d / 10 == DigitValue(x[0]) && d % 10 == DigitValue(x[1]);
      TwoDigits(x, d);
    }
  }

  lemma DaySpellingRead(x: string, d: int)
    requires 1 <= d <= 31 && x in DaySpellings(d)
    ensures DayToken(x) == Some(d)
  {
    if x == Pad2(d) {
      DayTokenPad(d);
    } else {
      assert NatToString(d) == [DigitChar(d)];
    }
  }

  /** A one-digit field is the `str` of its value. */
  lemma SingleDigit(x: string)
    requires |x| == 1 && IsDigit(x[0])
    ensures NatToString(DigitValue(x[0])) == x
  {
    DigitRoundTrip(x[0]);
  }

  /** A two-digit field whose digits are those of n is n zero-padded. */
  lemma TwoDigits(x: string, n: int)
    requires |x| == 2 && IsDigit(x[0]) && IsDigit(x[1]) && 0 <= n < 100
    requires n / 10 == DigitValue(x[0]) && n % 10 == DigitValue(x[1])
    ensures Pad2(n) == x
  {
    DigitRoundTrip(x[0]);
    DigitRoundTrip(x[1]);
  }

  /** Whatever strptime accepts is a spelling of the date it returns. */
  lemma ParseYmdSound(s: string)
    requires ParseYmd(s).Some?
    ensures s in Spellings(ParseYmd(s).value)
  {
    var r := ParseYmd(s).value;
    var t := s[5..];
    var k := IndexOf(t, '-');
    var ms, ds := t[..k], t[k + 1..];
    assert r == Date(Value(s[..4]), MonthToken(ms).value, DayToken(ds).value);
    Pad4Digits(s[..4]);
    MonthTokenSpelled(ms);
    DayTokenSpelled(ds);
    Rejoin(t, k);
    Rejoin(s, 4);
    Associate(s[..4], ms, ds);
  }

  /** A string is the text before a dash, the dash and the text after it. */
  lemma Rejoin(s: string, i: nat)
    requires i < |s| && s[i] == '-'
    ensures s == s[..i] + "-" + s[i + 1..]
  {
  }

  lemma Associate(y: string, m: string, d: string)
    ensures y + "-" + (m + "-" + d) == y + "-" + m + "-" + d
  {
  }

  /** strptime reads every spelling of a valid date back as that date. */
  lemma ParseYmdComplete(d: Date, ms: string, ds: string)
    requires ValidDate(d) && ms in MonthSpellings(d.month) && ds in DaySpellings(d.day)
    ensures ParseYmd(Pad4(d.year) + "-" + ms + "-" + ds) == Some(d)
  {
    var y, t := Pad4(d.year), ms + "-" + ds;
    var s := y + "-" + t;
    Associate(y, ms, ds);
    assert AllDigits(ms);
    assert s[..4] == y && s[4] == '-' && s[5..] == t;
    IndexOfAfter(ms, ds, '-');
    assert t[..|ms|] == ms && t[|ms| + 1..] == ds;
    Pad4Value(d.year);
    MonthSpellingRead(ms, d.month);
    DaySpellingRead(ds, d.day);
  }

  /** strptime returns d exactly for the spellings of d, and for nothing that is not a valid date. */
  lemma ParseYmdSpellings(s: string, d: Date)
    ensures ParseYmd(s) == Some(d) <==> ValidDate(d) && s in Spellings(d)
  {
    if ParseYmd(s) == Some(d) {
      ParseYmdSound(s);
    }
    if ValidDate(d) && s in Spellings(d) {
      var ms, ds :| ms in MonthSpellings(d.month) && ds in DaySpellings(d.day) && s == Pad4(d.year) + "-" + ms + "-" + ds;
      ParseYmdComplete(d, ms, ds);
    }
  }

  // ---------------------------------------------------------------- resolving

  const Keywords: set<string> :=
    {"last_3_days", "last_7_days", "last_30_days", "this_week", "last_week", "this_month", "last_month"}

  function OrOverflow(d: Option<Date>): (r: Result<Date, Error>)
    ensures d.None? <==> r == Failure(DateOutOfRange)
    ensures d.Some? ==> r == Success(d.value)
  {
    if d.None? then Failure(DateOutOfRange) else Success(d.value)
  }

  /** The start date a relative keyword denotes on `today`. */
  function KeywordStart(expr: string, today: Date): (r: Result<Date, Error>)
    requires ValidDate(today)
    ensures r.Success? ==> ValidDate(r.value)
  {
    if expr == "last_3_days" then OrOverflow(SubDays(today, 3))
    else if expr == "last_7_days" then OrOverflow(SubDays(today, 7))
    else if expr == "last_30_days" then OrOverflow(SubDays(today, 30))
    else if expr == "this_week" then OrOverflow(SubDays(today, Weekday(today)))
    else if expr == "last_week" then OrOverflow(SubDays(today, Weekday(today) + 7))
    else if expr == "this_month" then Success(Date(today.year, today.month, 1))
    else if expr == "last_month" then
      match PrevDay(Date(today.year, today.month, 1))
      case None => Failure(DateOutOfRange)
      case Some(p) => Success(Date(p.year, p.month, 1))
    else Failure(UnsupportedRange(expr))
  }

  datatype Interval = Interval(start: Date, end: Date)

  predicate ValidInterval(i: Interval) { ValidDate(i.start) && ValidDate(i.end) }

  /** The dates an expression denotes at the local time `now`. */
  function Resolve(expr: string, now: DateTime): (r: Result<Interval, Error>)
    requires ValidDateTime(now)
    ensures r.Success? ==> ValidInterval(r.value)
  {
    if '/' in expr then
      var parts := Split(expr, '/');
      if |parts| != 2 then Failure(TooManyParts(expr))
      else
        var start, end := ParseYmd(parts[0]), ParseYmd(parts[1]);
        if start.None? || end.None? then Failure(MalformedDate(expr))
        else Success(Interval(start.value, end.value))
    else
      match ParseYmd(expr)
      case Some(d) => Success(Interval(d, d))
      case None =>
        match KeywordStart(expr, now.date)
        case Failure(e) => Failure(e)
        case Success(start) => Success(Interval(start, now.date))
  }

  /** `parse_date_range(expr)` evaluated at the local time `now`. */
  function ParseDateRange(expr: string, now: DateTime): Result<string, Error>
    requires ValidDateTime(now)
  {
    match Resolve(expr, now)
    case Failure(e) => Failure(e)
    case Success(i) => Success(Render(i.start, i.end))
  }

  // ---------------------------------------------------------------- properties

  /** A midnight is its date, read back by strptime, followed by the literal time. */
  lemma MidnightParts(d: Date)
    requires ValidDate(d)
    ensures var x := IsoMidnight(d); ParseYmd(x[..10]) == Some(d) && x[10..] == "T00:00:00.000"
  {
    var x := IsoMidnight(d);
    assert x[..10] == IsoDate(d);
    ParseIsoDate(d);
  }

  /** The rendered interval takes apart into its two halves again. */
  lemma RenderParts(a: Date, b: Date)
    requires ValidDate(a) && ValidDate(b)
    ensures
      var r := Render(a, b);
      && |r| == 47
      && Split(r, '/') == [IsoMidnight(a), IsoMidnight(b)]
      && ParseYmd(r[..10]) == Some(a) && r[10..23] == "T00:00:00.000"
      && ParseYmd(r[24..34]) == Some(b) && r[34..] == "T00:00:00.000"
  {
    var x, y := IsoMidnight(a), IsoMidnight(b);
    var r := Render(a, b);
    SplitJoin(x, y, '/');
    MidnightParts(a);
    MidnightParts(b);
    assert r[..23] == x && r[24..] == y;
    assert r[..10] == x[..10] && r[10..23] == x[10..];
    assert r[24..34] == y[..10] && r[34..] == y[10..];
  }

  /** Every success is two midnights with a literal ".000", joined by one "/",
      and each half reads back as the date it was resolved to. */
  lemma OutputShape(expr: string, now: DateTime)
    requires ValidDateTime(now)
    ensures ParseDateRange(expr, now).Success? <==> Resolve(expr, now).Success?
    ensures ParseDateRange(expr, now).Success? ==>
      var r, i := ParseDateRange(expr, now).value, Resolve(expr, now).value;
      && |r| == 47
      && Split(r, '/') == [IsoMidnight(i.start), IsoMidnight(i.end)]
      && ParseYmd(r[..10]) == Some(i.start) && r[10..23] == "T00:00:00.000"
      && ParseYmd(r[24..34]) == Some(i.end) && r[34..] == "T00:00:00.000"
  {
    if Resolve(expr, now).Success? {
      var i := Resolve(expr, now).value;
      RenderParts(i.start, i.end);
    }
  }

  /** An explicit pair of dates is kept as given, in the given order. */
  lemma ExplicitPair(a: Date, b: Date, now: DateTime)
    requires ValidDate(a) && ValidDate(b) && ValidDateTime(now)
    ensures ParseDateRange(IsoDate(a) + "/" + IsoDate(b), now) == Success(Render(a, b))
  {
    var expr := IsoDate(a) + "/" + IsoDate(b);
    assert expr[10] == '/';
    SplitJoin(IsoDate(a), IsoDate(b), '/');
    ParseIsoDate(a);
    ParseIsoDate(b);
  }

  /** `isoformat()` of two concrete dates, digit by digit. */
  lemma ExampleDates()
    ensures IsoDate(Date(2024, 4, 1)) == "2024-04-01"
    ensures IsoDate(Date(2024, 4, 19)) == "2024-04-19"
  {
    assert DigitChar(0) == '0' && DigitChar(1) == '1' && DigitChar(2) == '2';
    assert DigitChar(4) == '4' && DigitChar(9) == '9';
  }

  /** The same dates at midnight with the literal milliseconds. */
  lemma ExampleMidnights()
    ensures IsoMidnight(Date(2024, 4, 1)) == "2024-04-01T00:00:00.000"
    ensures IsoMidnight(Date(2024, 4, 19)) == "2024-04-19T00:00:00.000"
  {
    ExampleDates();
  }

  /** The range written for those two dates. */
  lemma ExampleRendering()
    ensures Render(Date(2024, 4, 1), Date(2024, 4, 19)) == "2024-04-01T00:00:00.000/2024-04-19T00:00:00.000"
  {
    ExampleMidnights();
  }

  /** A concrete explicit pair comes back as two midnights, whatever the clock says. */
  lemma ExplicitPairExample(expr: string, now: DateTime)
    requires ValidDateTime(now) && expr == "2024-04-01/2024-04-19"
    ensures ParseDateRange(expr, now) == Success("2024-04-01T00:00:00.000/2024-04-19T00:00:00.000")
  {
    var a, b := Date(2024, 4, 1), Date(2024, 4, 19);
    ExampleDates();
    assert expr == IsoDate(a) + "/" + IsoDate(b);
    ExplicitPair(a, b, now);
    ExampleRendering();
  }

  /** A single date D resolves to D/D. */
  lemma SingleDate(expr: string, now: DateTime)
    requires ValidDateTime(now) && '/' !in expr && ParseYmd(expr).Some?
    ensures Resolve(expr, now) == Success(Interval(ParseYmd(expr).value, ParseYmd(expr).value))
    ensures ParseDateRange(expr, now) == Success(Render(ParseYmd(expr).value, ParseYmd(expr).value))
  {
  }

  /** An expression with "/" succeeds iff it holds exactly one "/" with a valid date on each side;
      more than one "/" is the unpacking error, otherwise the malformed-date error. */
  lemma SlashRule(expr: string, now: DateTime)
    requires ValidDateTime(now) && '/' in expr
    ensures
      var i, r := IndexOf(expr, '/'), Resolve(expr, now);
      && (r.Success? <==> '/' !in expr[i + 1..] && ParseYmd(expr[..i]).Some? && ParseYmd(expr[i + 1..]).Some?)
      && (r.Success? ==> ParseYmd(expr[..i]) == Some(r.value.start) && ParseYmd(expr[i + 1..]) == Some(r.value.end))
      && ('/' in expr[i + 1..] ==> r == Failure(TooManyParts(expr)))
      && ('/' !in expr[i + 1..] && r.Failure? ==> r == Failure(MalformedDate(expr)))
  {
    SplitTwo(expr, '/');
  }

  /** No keyword contains "/" or reads as a date. */
  lemma KeywordsAreNotDates(kw: string)
    requires kw in Keywords
    ensures '/' !in kw && ParseYmd(kw).None?
  {
    assert !IsDigit(kw[0]);
    assert !AllDigits(kw[..4]) by {
      assert kw[..4][0] == kw[0];
    }
  }

  /** A non-date expression outside the keyword set fails, naming the expression. */
  lemma UnsupportedExpression(expr: string, now: DateTime)
    requires ValidDateTime(now) && '/' !in expr && ParseYmd(expr).None? && expr !in Keywords
    ensures ParseDateRange(expr, now) == Failure(UnsupportedRange(expr))
  {
  }

  /** last_3_days, last_7_days, last_30_days: start n days before today, end today. */
  lemma LastDays(kw: string, n: nat, now: DateTime)
    requires ValidDateTime(now)
    requires (kw == "last_3_days" && n == 3) || (kw == "last_7_days" && n == 7) || (kw == "last_30_days" && n == 30)
    ensures Resolve(kw, now).Success? <==> Ordinal(now.date) > n
    ensures Resolve(kw, now).Success? ==>
      Ordinal(Resolve(kw, now).value.start) == Ordinal(now.date) - n && Resolve(kw, now).value.end == now.date
  {
    KeywordsAreNotDates(kw);
    SubDaysOrdinal(now.date, n);
  }

  /** A keyword resolves to its start date and ends today. */
  lemma ResolveKeyword(kw: string, now: DateTime)
    requires ValidDateTime(now) && kw in Keywords
    ensures KeywordStart(kw, now.date).Failure? ==> Resolve(kw, now) == Failure(KeywordStart(kw, now.date).error)
    ensures KeywordStart(kw, now.date).Success? ==>
      Resolve(kw, now) == Success(Interval(KeywordStart(kw, now.date).value, now.date))
  {
    KeywordsAreNotDates(kw);
  }

  /** this_week starts on the Monday of the current week (never fails: 0001-01-01 is a Monday). */
  lemma ThisWeek(now: DateTime)
    requires ValidDateTime(now)
    ensures Resolve("this_week", now).Success?
    ensures
      var i, today := Resolve("this_week", now).value, now.date;
      && Weekday(i.start) == 0
      && Ordinal(i.start) == Ordinal(today) - Weekday(today)
      && Ordinal(today) - 6 <= Ordinal(i.start) <= Ordinal(today)
      && i.end == today
  {
    ResolveKeyword("this_week", now);
    MondayOfWeek(now.date);
  }

  /** last_week starts on the Monday seven days before this week's Monday (see ThisWeek),
      and still ends today rather than at the end of last week. */
  lemma LastWeek(now: DateTime)
    requires ValidDateTime(now)
    ensures Resolve("last_week", now).Success? <==> Ordinal(now.date) > Weekday(now.date) + 7
    ensures Resolve("last_week", now).Success? ==>
      var i, today := Resolve("last_week", now).value, now.date;
      && Weekday(i.start) == 0
      && Ordinal(i.start) == Ordinal(today) - Weekday(today) - 7
      && i.end == today
  {
    var today := now.date;
    KeywordsAreNotDates("last_week");
    assert KeywordStart("last_week", today) == OrOverflow(SubDays(today, Weekday(today) + 7));
    PrevWeekMonday(today);
  }

  /** this_month starts on day 1 of the current month. */
  lemma ThisMonth(now: DateTime)
    requires ValidDateTime(now)
    ensures Resolve("this_month", now) == Success(Interval(Date(now.date.year, now.date.month, 1), now.date))
  {
    KeywordsAreNotDates("this_month");
  }

  /** last_month starts on day 1 of the previous month, December of the previous year in January;
      only January of year 1 has no previous month. */
  lemma LastMonth(now: DateTime)
    requires ValidDateTime(now)
    ensures Resolve("last_month", now).Success? <==> !(now.date.year == 1 && now.date.month == 1)
    ensures Resolve("last_month", now).Success? ==>
      var y, m := now.date.year, now.date.month;
      Resolve("last_month", now).value
        == Interval(if m == 1 then Date(y - 1, 12, 1) else Date(y, m - 1, 1), now.date)
  {
    KeywordsAreNotDates("last_month");
  }
}
