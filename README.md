# Candlestick chart transform of `stock_chart.py`

`stock_chart.py` is a command-line script. It fetches daily OHLC bars for a
ticker and a date range, labels each day Bullish, Bearish or Equal, adds the
columns a candlestick chart needs, and draws the chart. This project models
what the script computes between the fetch and the drawing. It also models how
the script reads its command line. The model has three modules:

- `Candles` (`candles.dfy`): the fetched row (`Bar`), the status label
  (`Classify`, i.e. `bull_bear`), the Median and Height columns, and the
  enrichment of a whole table (`Enrich`). `ClassifyAll` is the list
  comprehension that builds the Status column, written as a loop.
- `Chart` (`chart.dfy`): what the charting library receives. There is one
  wick segment per row, from High to Low. The Bullish and Bearish masks select
  rows (`Positions`). Each selected row gets one body rectangle (`Bodies`):
  it is centred at the row's Median, Height tall and twelve hours
  (43 200 000 ms) wide, filled `green` or `#FF3333`.
- `Args` (`args.dfy`): the ticker is upper-cased. A date argument is split on
  `'-'` and must give exactly three fields. Each field goes through `int()`
  and then `datetime(year, month, day)`. With no date arguments, the range is
  thirty days back from the clock.

Prices are exact `real` numbers. Time points (`Instant`) are integer
milliseconds since the Unix epoch, the unit of the chart's datetime axis. A
date given on the command line stands for its midnight. Python's `datetime`
is modelled by its proleptic Gregorian day number (`Ordinal`, where
0001-01-01 is day 1).

Notes on the code's behaviour:

- The default range reads the clock twice: once for the start (line 62) and
  once for the end (line 63). So `end - start` is thirty days plus the time
  between the two reads, not exactly thirty days. `ParseArgs` takes the two
  readings as `now1` and `now2`, and states that difference.
- With a start date but no end date, reading the end-date argument raises (line 57). That
  call is `ParseArgs` with two arguments, and it is an error
  (`MissingEndDate`). It is not a request for an open-ended range.
- Date parsing (lines 55-60) runs before the `try` block. Its errors are
  therefore not turned into the catch-all message. The model returns them as
  distinct `ArgError` values, in the order the code raises them: first the
  start date's field count, then the missing end date, then the end date's
  field count, then the start date's integers and `datetime` call, and last
  the end date's. Within one `datetime` call, an argument that does not fit a
  C `int` raises an overflow error before any range check (`IntOverflow`).
- `int()` refuses a field of more than 4300 digits (Python's default
  `sys.int_info.default_max_str_digits`, where leading zeros count and the sign
  does not). The script raises `ValueError` there, as for any other field that
  is not an integer, so the model reports it as `NotAnInteger` of that field.
- Equal rows are selected by neither mask. They get a wick and no body.

## Model

| member | source | states |
|---|---|---|
| `Candles.Classify` | stock_chart.py:29-45 | Every (close, open) pair gets exactly one label: Bullish iff close > open, Bearish iff close < open, Equal iff they are equal |
| `Candles.Median` | stock_chart.py:70 | The median lies between min(open, close) and max(open, close), at the same distance from both. That makes it symmetric in open and close |
| `Candles.MedianSymmetric` | stock_chart.py:70 | Swapping open and close does not change the median |
| `Candles.Height` | stock_chart.py:71 | The height is non-negative and equals max(open, close) − min(open, close). It is zero iff the day is classified Equal |
| `Candles.Enrich` | stock_chart.py:69-72 | The enriched table has as many rows as the fetched one, in the same order. Row i keeps fetched row i and its date key as `index`. Its Status, Median and Height are the classifier, median and height of that row's prices |
| `Candles.ClassifyAll` | stock_chart.py:69 | The loop over the Close and Open columns yields one status per row, in row order. Each is that row's classification and equals the Status column of `Enrich` |
| `Candles.HeightZeroIffEqual` | stock_chart.py:69-71 | In the enriched table a row's Height is zero iff its Status is Equal. Every Bullish or Bearish row has a positive Height |
| `Candles.BullishExample` | stock_chart.py:69-72 | Open 100, close 105 gives Bullish, median 102.5, height 5 |
| `Candles.EqualExample` | stock_chart.py:69-72 | Open 50, close 50 gives Equal, median 50, height 0 |
| `Chart.Wicks` | stock_chart.py:90 | Exactly one wick per row, in row order. Each runs from the row's High to its Low at the row's index |
| `Chart.Positions` | stock_chart.py:92-95 | The mask `Status == s` selects exactly the rows whose status is s (both directions), in increasing row order |
| `Chart.Bodies` | stock_chart.py:92-95 | There is one rectangle per selected row, in mask order. The k-th rectangle is the body of the k-th selected row: at its index and median, twelve hours wide, Height tall |
| `Chart.Draw` | stock_chart.py:82-95 | The chart of a fetched table has one wick per bar, at the bar's date, from High to Low. There are as many green bodies as Bullish bars and as many red bodies as Bearish bars. Every green body is filled `green`, every red one `#FF3333`, and all are 43 200 000 ms wide |
| `Chart.DrawBodiesAt` | stock_chart.py:92-95 | The k-th green body of the chart is the body of the k-th Bullish bar: at its date, centred halfway between open and close, as tall as their distance. Likewise the k-th red body is that of the k-th Bearish bar |
| `Chart.MasksPartition` | stock_chart.py:92-95 | The Bullish, Bearish and Equal masks partition the rows. Each row is in a mask's list iff it has that status, and the three lists' lengths add up to the table's length |
| `Chart.EqualRowsHaveNoBody` | stock_chart.py:90-95 | No row gets both a green and a red body. A row gets no body iff its open equals its close. Green bodies, red bodies and Equal rows together number the bars |
| `Chart.BodySpansOpenClose` | stock_chart.py:82-95 | Each body sits at its bar's date and is 12 h wide. Its bottom edge is min(open, close) and its top edge is max(open, close). Bullish and Bearish bodies are never flat |
| `Chart.BodyWithinWick` | stock_chart.py:90-95 | When every bar has low ≤ open, close ≤ high, each body lies within the wick drawn at its position |
| `Chart.BodiesInDateOrder` | stock_chart.py:92-95 | Each body series keeps its rows' relative order. On a table with increasing dates, the bodies' dates increase |
| `Args.Upper` | stock_chart.py:54 | Upper-casing keeps the length. It maps each character on its own: a-z become A-Z, and every other character is unchanged |
| `Args.UpperNormalises` | stock_chart.py:54 | The normalised ticker holds no lower-case letter, keeps all other characters, and upper-casing it again changes nothing |
| `Args.UpperIgnoresCase` | stock_chart.py:54 | Tickers that differ only in letter case normalise to the same ticker |
| `Args.Split` | stock_chart.py:56-57 | Splitting gives at least one piece, and no piece holds the separator |
| `Args.JoinSplit` | stock_chart.py:56-57 | Joining the pieces of a split with the separator gives the string back. There is one piece more than there are separators |
| `Args.SplitJoin` | stock_chart.py:56-57 | Splitting pieces that were joined, none of which holds the separator, gives those pieces back |
| `Args.ParseShowInt` | stock_chart.py:59-60 | The decimal rendering of an integer of at most 4300 digits is read back by `int()` as that integer |
| `Args.ParseIntDigits` | stock_chart.py:59-60 | `int()` of an optional sign followed by decimal digits succeeds iff there are 1 to 4300 digits, leading zeros included. It then yields the digits' value, negated after a `-` |
| `Args.ParseIntTooManyDigits` | stock_chart.py:59-60 | More than 4300 digits are refused, with or without a `-`, even when they are all zeros |
| `Args.ParseIntRejects` | stock_chart.py:59-60 | A field is rejected when it holds a character other than a leading sign and decimal digits |
| `Args.ParseIntRejectsNoDigits` | stock_chart.py:59-60 | The empty field and a lone `+` or `-` are rejected |
| `Args.MakeDatetime` | stock_chart.py:59-60 | `datetime(y, m, d)` succeeds iff the year is in 1..9999, the month in 1..12 and the day within the month, and then gives that date's midnight. An argument outside the C `int` range raises an overflow error naming the first such argument. Otherwise a failure is a year, month or day range error |
| `Args.OrdinalNextDay` | stock_chart.py:59-60 | The day numbering behind `datetime` has no gaps: the day after a valid date is valid and numbered one higher, across month and year ends and leap days |
| `Args.MidnightNextDay` | stock_chart.py:59-60 | Midnights of consecutive dates are exactly one day (86 400 000 ms) apart |
| `Args.SplitDate` | stock_chart.py:56-57 | Unpacking into three fields succeeds iff the argument holds exactly two `'-'`. The fields are the three pieces of the split, and joined by `'-'` they give the argument back. Otherwise the error reports the actual field count |
| `Args.ParseField` | stock_chart.py:59-60 | A field converts iff `int()` accepts it (a sign and 1 to 4300 digits), and then yields that integer. Otherwise the error names the field |
| `Args.FieldsToInstant` | stock_chart.py:59-60 | Converting three fields succeeds iff each is an integer and together they name a valid date, and then yields that date's midnight |
| `Args.ParseArgs` | stock_chart.py:54-63 | An accepted request carries the upper-cased ticker. With the ticker alone, the range is [first clock read − 30 days, second clock read], so its length is thirty days plus the gap between the reads. A start date without an end date is an error. A first date argument without exactly two `'-'` raises the field-count error. A request accepted with date arguments has both dates accepted, and its start and end are the midnights of the dates their fields name |
| `Args.ParseArgsAccepts` | stock_chart.py:55-60 | With date arguments, the command line is accepted iff there are both a start and an end date, and each splits into three integer fields naming a valid calendar date |
| `Args.SplitFormatDate` | stock_chart.py:56 | A valid date written `Y-M-D` splits back into its three rendered fields |
| `Args.DateArgumentsRoundTrip` | stock_chart.py:54-60 | Any ticker and two valid dates written `Y-M-D` (with any further arguments) give the upper-cased ticker and the midnights of those two dates |
| `Args.DateExample` | stock_chart.py:54-60 | `aapl 2023-1-5 2023-2-1` asks for AAPL from January 5, 2023 to February 1, 2023 |
| `Args.MidnightExample` | stock_chart.py:59 | Midnight of January 5, 2023 is instant 1 672 876 800 000 ms on the chart's axis |

## Left out

- `stock_data` and its `DataReader` call (stock_chart.py:12-26). This is a network fetch through a third-party library. The fetched table is an input (`seq<Bar>`) of `Enrich` and `Draw`.
- The drawing itself: `ColumnDataSource`, `figure`, the hover tool, `output_file` and `show` (stock_chart.py:75-99). These are calls into the charting library. Only the geometry and series they receive are modelled. The hover tool's fields (High, Low, Open, Close) are in the rows, unchanged.
- The chart title built with `strftime` (stock_chart.py:79). It is cosmetic formatting.
- Floating-point rounding of prices. Prices are exact reals, so the median and height identities hold exactly.
- NaN prices. The model's prices are never NaN. In the script, a NaN open or close (a missing value in the fetched table) fails both comparisons in `bull_bear`, so the day is labelled Equal (lines 43-44), while its Median and Height (lines 70-71) are NaN rather than a number and zero. `Candles.Height` and `Candles.HeightZeroIffEqual` do not describe such rows.
- The wall clock (stock_chart.py:62-63). Its two readings are the parameters `now1` and `now2`. The model works in milliseconds, while Python's `datetime` keeps microseconds. The model also does not check that `now1 − 30 days` stays within `datetime`'s year range.
- `sys.argv` (stock_chart.py:9). The arguments are a parameter of `ParseArgs`. The entry guard and the undefined `doc_help()` (stock_chart.py:105-108) are not modelled either. `ParseArgs` requires at least one argument, which is exactly when the script calls `main_program`.
- The blanket `except` and the message it prints (stock_chart.py:101-102). The `try` covers the fetch, the enrichment and the drawing (lines 66-99). The modelled enrichment and geometry cannot raise on a table with the Open, High, Low and Close columns. An exception there would come from a table without them, which the fixed-shape `Bar` rules out. The fetch and drawing errors belong to the libraries.
- `Args.ParseInt` models `int()` of a string as an optional sign followed by 1 to 4300 ASCII digits. It does not model a digit limit changed with `sys.set_int_max_str_digits` or the `PYTHONINTMAXSTRDIGITS` setting. It does not model the surrounding whitespace, the digit-grouping underscores or the non-ASCII digits that `int()` also accepts.
- `Args.Upper` upper-cases only ASCII letters. It does not model Unicode case mapping (such as `ß` to `SS`), which changes a string's length.
- The shape `low ≤ min(open, close) ≤ max(open, close) ≤ high` of fetched rows. The script does not check it and neither does the model. `Chart.BodyWithinWick` takes it as a requirement.
