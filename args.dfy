/**
 * Command-line handling: the ticker is upper-cased, each date argument is
 * split on '-' into year, month and day, and with no date arguments the range
 * is the thirty days up to now.
 */
module Args {
  import opened Candles

  datatype Option<T> = None | Some(value: T)

  /** The exceptions the argument handling can raise, one constructor per cause. */
  datatype ArgError =
    | FieldCount(arg: string, count: nat)  // unpacking the split into three names
    | MissingEndDate                       // a start date with no end date after it
    | NotAnInteger(field: string)          // int() of a field
    | YearOutOfRange(year: int)            // datetime(): year not in 1..9999
    | MonthOutOfRange(month: int)          // datetime(): month not in 1..12
    | DayOutOfRange(day: int)              // datetime(): day not in the month
    | IntOverflow(value: int)              // datetime(): argument does not fit a C int

  datatype Result<T> = Ok(value: T) | Err(error: ArgError)
  {
    predicate IsFailure() { Err? }

    function PropagateFailure<U>(): Result<U>
      requires Err?
    {
      Err(error)
    }

    function Extract(): T
      requires Ok?
    {
      value
    }
  }

  // ---------------------------------------------------------------- ticker

  predicate IsLower(ch: char) { 'a' <= ch <= 'z' }

  /** Upper-casing of one character: the ASCII letters a-z map to A-Z, nothing else changes. */
  function UpperChar(ch: char): char
  {
    if IsLower(ch) then (ch as int - 32) as char else ch
  }

  /** `str.upper()`, character by character. */
  function Upper(s: string): (u: string)
    ensures |u| == |s|
    ensures forall i :: 0 <= i < |s| ==> u[i] == UpperChar(s[i])
  {
    if s == [] then [] else [UpperChar(s[0])] + Upper(s[1..])
  }

  /**
   * The normalised ticker has no lower-case letter left, keeps every other
   * character where it was, and normalising it again changes nothing.
   */
  lemma UpperNormalises(s: string)
    ensures forall i :: 0 <= i < |s| ==> !IsLower(Upper(s)[i])
    ensures forall i :: 0 <= i < |s| && !IsLower(s[i]) ==> Upper(s)[i] == s[i]
    ensures Upper(Upper(s)) == Upper(s)
  {
  }

  /** Two tickers that differ only in the case of their ASCII letters name the same stock. */
  lemma UpperIgnoresCase(s: string, t: string)
    requires |s| == |t|
    requires forall i :: 0 <= i < |s| ==> UpperChar(s[i]) == UpperChar(t[i])
    ensures Upper(s) == Upper(t)
  {
  }

  // ---------------------------------------------------------------- split / join

  /** `s.split(sep)`: the pieces between occurrences of `sep`, empty pieces included. */
  function Split(s: string, sep: char): (parts: seq<string>)
    ensures |parts| >= 1
    ensures forall k :: 0 <= k < |parts| ==> sep !in parts[k]
  {
    if s == [] then [[]]
    else
      var rest := Split(s[1..], sep);
      if s[0] == sep then [[]] + rest
      else [[s[0]] + rest[0]] + rest[1..]
  }

  /** `sep.join(parts)`, the inverse of Split. */
  function Join(parts: seq<string>, sep: char): string
    requires |parts| >= 1
  {
    if |parts| == 1 then parts[0] else parts[0] + [sep] + Join(parts[1..], sep)
  }

  /** The number of occurrences of `ch` in `s`. */
  function Count(s: string, ch: char): nat
  {
    if s == [] then 0 else (if s[0] == ch then 1 else 0) + Count(s[1..], ch)
  }

  /** Joining the pieces gives back the string, and there is one piece more than separators. */
  lemma {:induction false} JoinSplit(s: string, sep: char)
    ensures Join(Split(s, sep), sep) == s
    ensures |Split(s, sep)| == Count(s, sep) + 1
  {
    if s != [] {
      JoinSplit(s[1..], sep);
      var rest := Split(s[1..], sep);
      if s[0] == sep {
        assert ([[]] + rest)[1..] == rest;
      } else {
        var parts := [[s[0]] + rest[0]] + rest[1..];
        assert parts[1..] == rest[1..];
        if |rest| > 1 {
          assert Join(rest, sep) == rest[0] + [sep] + Join(rest[1..], sep);
        }
        assert s == [s[0]] + s[1..];
      }
    }
  }

  /** Splitting a string whose first piece `p` holds no separator peels that piece off. */
  lemma {:induction false} SplitPrefix(p: string, t: string, sep: char)
    requires sep !in p
    ensures Split(p + t, sep) == [p + Split(t, sep)[0]] + Split(t, sep)[1..]
  {
    if p == [] {
      assert p + t == t;
      var x := Split(t, sep);
      assert [] + x[0] == x[0];
      assert [x[0]] + x[1..] == x;
    } else {
      SplitPrefix(p[1..], t, sep);
      assert (p + t)[1..] == p[1..] + t;
      assert (p + t)[0] == p[0];
      assert [p[0]] + (p[1..] + Split(t, sep)[0]) == p + Split(t, sep)[0];
    }
  }

  /** Splitting joined pieces that hold no separator gives the pieces back. */
  lemma {:induction false} SplitJoin(parts: seq<string>, sep: char)
    requires |parts| >= 1
    requires forall k :: 0 <= k < |parts| ==> sep !in parts[k]
    ensures Split(Join(parts, sep), sep) == parts
  {
    SplitPrefix(parts[0], if |parts| == 1 then [] else [sep] + Join(parts[1..], sep), sep);
    if |parts| == 1 {
      assert parts[0] + [] == parts[0];
      assert Split([], sep) == [[]];
      assert [parts[0] + []] == parts;
    } else {
      SplitJoin(parts[1..], sep);
      var u := Join(parts[1..], sep);
      assert ([sep] + u)[1..] == u;
      assert Split([sep] + u, sep) == [[]] + parts[1..];
      assert parts[0] + [sep] + u == parts[0] + ([sep] + u);
      assert parts[0] + [] == parts[0];
      assert [parts[0]] + parts[1..] == parts;
    }
  }

  // ---------------------------------------------------------------- integers

  predicate IsDigit(ch: char) { '0' <= ch <= '9' }

  predicate AllDigits(s: string) { forall i :: 0 <= i < |s| ==> IsDigit(s[i]) }

  function DigitValue(ch: char): nat
    requires IsDigit(ch)
  {
    ch as int - '0' as int
  }

  function DigitChar(d: nat): (ch: char)
    requires d < 10
    ensures IsDigit(ch) && DigitValue(ch) == d
  {
    ('0' as int + d) as char
  }

  /** The value of a string of decimal digits, most significant first. */
  function DigitsValue(s: string): nat
    requires AllDigits(s)
  {
    if s == [] then 0 else DigitsValue(s[..|s| - 1]) * 10 + DigitValue(s[|s| - 1])
  }

  /**
   * The most digits `int()` converts from a string: Python's default
   * `sys.int_info.default_max_str_digits`. Leading zeros count, the sign does not.
   */
  const MaxDigits: nat := 4300

  /**
   * `int(field)`: an optional sign followed by one to `MaxDigits` decimal
   * digits; anything else raises ValueError.
   */
  function ParseInt(field: string): Option<int>
  {
    var signed := |field| > 0 && (field[0] == '+' || field[0] == '-');
    var digits := if signed then field[1..] else field;
    if 0 < |digits| <= MaxDigits && AllDigits(digits) then
      var v: int := DigitsValue(digits);
      Some(if signed && field[0] == '-' then -v else v)
    else None
  }

  /** The decimal rendering of a natural number, without leading zeros. */
  function ShowNat(n: nat): (s: string)
    ensures |s| > 0 && AllDigits(s)
  {
    if n < 10 then [DigitChar(n)] else ShowNat(n / 10) + [DigitChar(n % 10)]
  }

  /** `str(n)`. */
  function ShowInt(n: int): string
  {
    if n < 0 then "-" + ShowNat(-n) else ShowNat(n)
  }

  lemma {:induction false} DigitsValueShowNat(n: nat)
    ensures DigitsValue(ShowNat(n)) == n
  {
    if n >= 10 {
      DigitsValueShowNat(n / 10);
      var s := ShowNat(n);
      assert s[..|s| - 1] == ShowNat(n / 10);
    }
  }

  /** Numbers below 10, 100, 1000 and 10000 render in at most 1, 2, 3 and 4 digits. */
  lemma {:induction false} ShowNatLength(n: nat)
    ensures n < 10 ==> |ShowNat(n)| == 1
    ensures n < 100 ==> |ShowNat(n)| <= 2
    ensures n < 1000 ==> |ShowNat(n)| <= 3
    ensures n < 10000 ==> |ShowNat(n)| <= 4
  {
    if n >= 10 {
      ShowNatLength(n / 10);
    }
  }

  /**
   * Every integer whose rendering has at most `MaxDigits` digits parses back to
   * that integer (beyond that, `str()` and `int()` both raise).
   */
  lemma {:induction false} ParseShowInt(n: int)
    requires |ShowNat(if n < 0 then -n else n)| <= MaxDigits
    ensures ParseInt(ShowInt(n)) == Some(n)
  {
    if n < 0 {
      DigitsValueShowNat(-n);
      assert ShowInt(n)[1..] == ShowNat(-n);
    } else {
      DigitsValueShowNat(n);
    }
  }

  /** A field holding a character other than a sign in front and digits is rejected. */
  lemma ParseIntRejects(field: string, i: int)
    requires 0 <= i < |field| && !IsDigit(field[i]) && !(i == 0 && (field[i] == '+' || field[i] == '-'))
    ensures ParseInt(field) == None
  {
  }

  /**
   * A sign (or none) followed by digits is accepted exactly when there are one
   * to `MaxDigits` digits, and then denotes their value with that sign.
   */
  lemma ParseIntDigits(sign: string, digits: string)
    requires sign == "" || sign == "+" || sign == "-"
    requires AllDigits(digits)
    ensures ParseInt(sign + digits).Some? <==> 0 < |digits| <= MaxDigits
    ensures ParseInt(sign + digits).Some? ==>
              ParseInt(sign + digits).value == if sign == "-" then -(DigitsValue(digits) as int) else DigitsValue(digits)
  {
    if sign != "" {
      assert (sign + digits)[1..] == digits;
    } else {
      assert sign + digits == digits;
    }
  }

  /** One digit more than `MaxDigits` is refused, even when every digit is a zero. */
  lemma ParseIntTooManyDigits(digits: string)
    requires AllDigits(digits) && |digits| > MaxDigits
    ensures ParseInt(digits) == None
    ensures ParseInt("-" + digits) == None
  {
  }

  /** An empty field, and a sign with no digits after it, are rejected too. */
  lemma ParseIntRejectsNoDigits()
    ensures ParseInt("") == None && ParseInt("+") == None && ParseInt("-") == None
  {
  }

  // ---------------------------------------------------------------- calendar

  const MinYear: int := 1
  const MaxYear: int := 9999

  /** Milliseconds in a day, and the default span of the chart. */
  const DayMs: int := 24 * 60 * 60 * 1000
  const DefaultSpan: int := 30 * DayMs

  /** The proleptic Gregorian ordinal of 1970-01-01, where 0001-01-01 is day 1. */
  const EpochOrdinal: int := 719163

  datatype Date = Date(year: int, month: int, day: int)

  predicate IsLeap(y: int)
  {
    y % 4 == 0 && (y % 100 != 0 || y % 400 == 0)
  }

  function DaysInMonth(y: int, m: int): int
    requires 1 <= m <= 12
  {
    if m == 2 then (if IsLeap(y) then 29 else 28)
    else if m == 4 || m == 6 || m == 9 || m == 11 then 30
    else 31
  }

  /** Days in the months of year `y` before month `m`. */
  function DaysBeforeMonth(y: int, m: int): int
    requires 1 <= m <= 12
  {
    var before := [0, 31, 59, 90, 120, 151, 181, 212, 243, 273, 304, 334];
    before[m - 1] + (if m > 2 && IsLeap(y) then 1 else 0)
  }

  /** The table of month offsets agrees with the month lengths. */
  lemma DaysBeforeNextMonth(y: int, m: int)
    requires 1 <= m < 12
    ensures DaysBeforeMonth(y, m + 1) == DaysBeforeMonth(y, m) + DaysInMonth(y, m)
  {
  }

  function DaysBeforeYear(y: int): int
  {
    var p := y - 1;
    p * 365 + p / 4 - p / 100 + p / 400
  }

  /** The dates `datetime(year, month, day)` accepts. */
  predicate ValidDate(d: Date)
  {
    MinYear <= d.year <= MaxYear && 1 <= d.month <= 12 && 1 <= d.day <= DaysInMonth(d.year, d.month)
  }

  /** Day number of a date, 0001-01-01 being day 1. */
  function Ordinal(d: Date): int
    requires ValidDate(d)
  {
    DaysBeforeYear(d.year) + DaysBeforeMonth(d.year, d.month) + d.day
  }

  /** The instant at the start of a date. */
  function Midnight(d: Date): Instant
    requires ValidDate(d)
  {
    (Ordinal(d) - EpochOrdinal) * DayMs
  }

  /** The date after a valid date. */
  function NextDay(d: Date): Date
    requires ValidDate(d)
  {
    if d.day < DaysInMonth(d.year, d.month) then Date(d.year, d.month, d.day + 1)
    else if d.month < 12 then Date(d.year, d.month + 1, 1)
    else Date(d.year + 1, 1, 1)
  }

  lemma DaysInYear(y: int)
    ensures DaysBeforeMonth(y, 12) + DaysInMonth(y, 12) == if IsLeap(y) then 366 else 365
    ensures DaysBeforeYear(y + 1) - DaysBeforeYear(y) == if IsLeap(y) then 366 else 365
  {
    var p := y - 1;
    assert y / 4 - p / 4 == if y % 4 == 0 then 1 else 0;
    assert y / 100 - p / 100 == if y % 100 == 0 then 1 else 0;
    assert y / 400 - p / 400 == if y % 400 == 0 then 1 else 0;
  }

  /** Consecutive dates have consecutive ordinals: the day numbering has no gaps. */
  lemma OrdinalNextDay(d: Date)
    requires ValidDate(d) && d.year < MaxYear
    ensures ValidDate(NextDay(d))
    ensures Ordinal(NextDay(d)) == Ordinal(d) + 1
  {
    if d.day == DaysInMonth(d.year, d.month) {
      if d.month == 12 {
        DaysInYear(d.year);
      } else {
        DaysBeforeNextMonth(d.year, d.month);
      }
    }
  }

  /** The midnights of consecutive dates are one day apart. */
  lemma MidnightNextDay(d: Date)
    requires ValidDate(d) && d.year < MaxYear
    ensures ValidDate(NextDay(d))
    ensures Midnight(NextDay(d)) == Midnight(d) + DayMs
  {
    OrdinalNextDay(d);
  }

  /** The range of a C `int`, to which `datetime` converts its arguments. */
  const IntMin: int := -0x8000_0000
  const IntMax: int := 0x7FFF_FFFF

  predicate FitsCInt(n: int) { IntMin <= n <= IntMax }

  /**
   * `datetime(y, m, d)`: the three arguments are first converted to C `int`,
   * left to right; then the year is checked, then the month, then the day.
   */
  function MakeDatetime(y: int, m: int, d: int): (r: Result<Instant>)
    ensures r.Ok? <==> ValidDate(Date(y, m, d))
    ensures r.Ok? ==> r.value == Midnight(Date(y, m, d))
    ensures !FitsCInt(y) ==> r == Err(IntOverflow(y))
    ensures FitsCInt(y) && !FitsCInt(m) ==> r == Err(IntOverflow(m))
    ensures FitsCInt(y) && FitsCInt(m) && !FitsCInt(d) ==> r == Err(IntOverflow(d))
    ensures r.Err? && FitsCInt(y) && FitsCInt(m) && FitsCInt(d) ==>
              r.error.YearOutOfRange? || r.error.MonthOutOfRange? || r.error.DayOutOfRange?
  {
    if !FitsCInt(y) then Err(IntOverflow(y))
    else if !FitsCInt(m) then Err(IntOverflow(m))
    else if !FitsCInt(d) then Err(IntOverflow(d))
    else if !(MinYear <= y <= MaxYear) then Err(YearOutOfRange(y))
    else if !(1 <= m <= 12) then Err(MonthOutOfRange(m))
    else if !(1 <= d <= DaysInMonth(y, m)) then Err(DayOutOfRange(d))
    else Ok(Midnight(Date(y, m, d)))
  }

  // ---------------------------------------------------------------- date arguments

  /** `y, m, d = arg.split('-')`: exactly three fields, otherwise the unpacking fails. */
  function SplitDate(arg: string): (r: Result<(string, string, string)>)
    ensures r.Ok? <==> Count(arg, '-') == 2
    ensures r.Ok? ==> r.value.0 + "-" + r.value.1 + "-" + r.value.2 == arg
    ensures r.Ok? ==> Split(arg, '-') == [r.value.0, r.value.1, r.value.2]
    ensures r.Err? ==> r.error == FieldCount(arg, Count(arg, '-') + 1)
  {
    var parts := Split(arg, '-');
    JoinSplit(arg, '-');
    if |parts| == 3 then
      assert parts == [parts[0], parts[1], parts[2]];
      Join3(parts[0], parts[1], parts[2], '-');
      Ok((parts[0], parts[1], parts[2]))
    else Err(FieldCount(arg, |parts|))
  }

  lemma Join3(a: string, b: string, c: string, sep: char)
    ensures Join([a, b, c], sep) == a + [sep] + b + [sep] + c
  {
    assert [a, b, c][1..] == [b, c];
    assert [b, c][1..] == [c];
    assert Join([b, c], sep) == b + [sep] + c;
    assert a + [sep] + (b + [sep] + c) == a + [sep] + b + [sep] + c;
  }

  /** `int()` of one field, raising on a field that is not an integer. */
  function ParseField(field: string): (r: Result<int>)
    ensures r.Ok? <==> ParseInt(field).Some?
    ensures r.Ok? ==> r.value == ParseInt(field).value
    ensures r.Err? ==> r.error == NotAnInteger(field)
  {
    match ParseInt(field)
    case Some(n) => Ok(n)
    case None => Err(NotAnInteger(field))
  }

  /** `datetime(int(y), int(m), int(d))`, the arguments converted left to right. */
  function FieldsToInstant(f: (string, string, string)): (r: Result<Instant>)
    ensures r.Ok? <==>
              ParseInt(f.0).Some? && ParseInt(f.1).Some? && ParseInt(f.2).Some? &&
              ValidDate(Date(ParseInt(f.0).value, ParseInt(f.1).value, ParseInt(f.2).value))
    ensures r.Ok? ==> r.value == Midnight(Date(ParseInt(f.0).value, ParseInt(f.1).value, ParseInt(f.2).value))
  {
    var y :- ParseField(f.0);
    var m :- ParseField(f.1);
    var d :- ParseField(f.2);
    MakeDatetime(y, m, d)
  }

  /** A date argument the program accepts: three integer fields naming a calendar date. */
  predicate AcceptedDate(arg: string)
  {
    var parts := Split(arg, '-');
    |parts| == 3 &&
    ParseInt(parts[0]).Some? && ParseInt(parts[1]).Some? && ParseInt(parts[2]).Some? &&
    ValidDate(Date(ParseInt(parts[0]).value, ParseInt(parts[1]).value, ParseInt(parts[2]).value))
  }

  /** The date an accepted date argument names. */
  function ArgDate(arg: string): Date
    requires AcceptedDate(arg)
  {
    var parts := Split(arg, '-');
    Date(ParseInt(parts[0]).value, ParseInt(parts[1]).value, ParseInt(parts[2]).value)
  }

  /** The rendering `Y-M-D` of a date. */
  function FormatDate(d: Date): string
  {
    ShowInt(d.year) + "-" + ShowInt(d.month) + "-" + ShowInt(d.day)
  }

  // ---------------------------------------------------------------- the whole command line

  /** What the arguments ask for: the ticker to fetch and the range of dates. */
  datatype Request = Request(ticker: string, start: Instant, end: Instant)

  /**
   * The argument handling of the main program. `args` are the words after the
   * program name (the program runs only when there is at least one); `now1`
   * and `now2` are the two readings of the clock, taken in that order, used
   * when no dates are given. Arguments after the end date are ignored.
   */
  function ParseArgs(args: seq<string>, now1: Instant, now2: Instant): (r: Result<Request>)
    requires |args| >= 1
    ensures r.Ok? ==> r.value.ticker == Upper(args[0])
    ensures |args| == 1 ==> r == Ok(Request(Upper(args[0]), now1 - DefaultSpan, now2))
    ensures |args| == 1 ==> r.value.end - r.value.start == DefaultSpan + (now2 - now1)
    ensures |args| == 2 ==> r.Err?
    ensures |args| >= 2 && Count(args[1], '-') != 2 ==> r == Err(FieldCount(args[1], Count(args[1], '-') + 1))
    ensures |args| >= 2 && r.Ok? ==>
              |args| >= 3 && AcceptedDate(args[1]) && AcceptedDate(args[2]) &&
              r.value.start == Midnight(ArgDate(args[1])) && r.value.end == Midnight(ArgDate(args[2]))
  {
    var ticker := Upper(args[0]);
    if |args| > 1 then
      var s :- SplitDate(args[1]);
      if |args| < 3 then Err(MissingEndDate)
      else
        var e :- SplitDate(args[2]);
        var start :- FieldsToInstant(s);
        var end :- FieldsToInstant(e);
        Ok(Request(ticker, start, end))
    else
      Ok(Request(ticker, now1 - DefaultSpan, now2))
  }

  /**
   * Date arguments are accepted exactly when both are three integer fields
   * naming calendar dates.
   */
  lemma ParseArgsAccepts(args: seq<string>, now1: Instant, now2: Instant)
    requires |args| >= 2
    ensures ParseArgs(args, now1, now2).Ok? <==>
              |args| >= 3 && AcceptedDate(args[1]) && AcceptedDate(args[2])
  {
  }

  /** The rendering of a valid date splits into its three fields. */
  lemma {:induction false} SplitFormatDate(d: Date)
    requires ValidDate(d)
    ensures SplitDate(FormatDate(d)) == Ok((ShowInt(d.year), ShowInt(d.month), ShowInt(d.day)))
  {
    var a, b, c := ShowInt(d.year), ShowInt(d.month), ShowInt(d.day);
    assert forall k :: 0 <= k < |[a, b, c]| ==> '-' !in [a, b, c][k];
    SplitJoin([a, b, c], '-');
    Join3(a, b, c, '-');
    JoinSplit(FormatDate(d), '-');
  }

  /**
   * Two valid dates written `Y-M-D` are read back as the midnights of those
   * dates.
   */
  lemma {:induction false} DateArgumentsRoundTrip(ticker: string, d1: Date, d2: Date, rest: seq<string>,
                                                 now1: Instant, now2: Instant)
    requires ValidDate(d1) && ValidDate(d2)
    ensures ParseArgs([ticker, FormatDate(d1), FormatDate(d2)] + rest, now1, now2)
            == Ok(Request(Upper(ticker), Midnight(d1), Midnight(d2)))
  {
    SplitFormatDate(d1);
    SplitFormatDate(d2);
    FieldsOfDate(d1);
    FieldsOfDate(d2);
  }

  /** The three rendered fields of a valid date convert back to its midnight. */
  lemma FieldsOfDate(d: Date)
    requires ValidDate(d)
    ensures FieldsToInstant((ShowInt(d.year), ShowInt(d.month), ShowInt(d.day))) == Ok(Midnight(d))
  {
    ShowNatLength(d.year);
    ShowNatLength(d.month);
    ShowNatLength(d.day);
    ParseShowInt(d.year);
    ParseShowInt(d.month);
    ParseShowInt(d.day);
  }

  /** Worked example: "2023-1-5" and "2023-2-1" name January 5 and February 1, 2023. */
  lemma DateExample(now1: Instant, now2: Instant)
    ensures ParseArgs(["aapl", "2023-1-5", "2023-2-1"], now1, now2)
            == Ok(Request("AAPL", Midnight(Date(2023, 1, 5)), Midnight(Date(2023, 2, 1))))
  {
    assert ShowNat(2023) == "2023" by {
      assert ShowNat(2) == "2";
      assert ShowNat(20) == "20";
      assert ShowNat(202) == "202";
    }
    assert FormatDate(Date(2023, 1, 5)) == "2023-1-5";
    assert FormatDate(Date(2023, 2, 1)) == "2023-2-1";
    assert Upper("aapl") == "AAPL" by {
      assert Upper("l") == "L";
      assert Upper("pl") == "PL";
      assert Upper("apl") == "APL";
    }
    DateArgumentsRoundTrip("aapl", Date(2023, 1, 5), Date(2023, 2, 1), [], now1, now2);
    assert ["aapl", FormatDate(Date(2023, 1, 5)), FormatDate(Date(2023, 2, 1))] + []
        == ["aapl", "2023-1-5", "2023-2-1"];
  }

  /** The midnight of January 5, 2023 on the chart's time axis. */
  lemma MidnightExample()
    ensures Midnight(Date(2023, 1, 5)) == 1672876800000
  {
  }
}
