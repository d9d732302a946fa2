# time_parser in Dafny

A verified model of `time_parser.py`, a small tool that reads a time log and
adds up the time spent on each day. Each log line names a month, a day and a
duration written `(H:M)` or `(d+H:M)`. The program parses every line and sums
the durations per day, carrying whole hours out of the minutes and adding a
flat 24 hours when the `d+` prefix is present. It then lists each day with its
total, in the order the days first appeared.

The model has four modules:

- `Wrappers` (wrappers.dfy) holds `Option`.
- `LineParser` (line_parser.dfy) models `parse_line`, the line grammar and `ParsedDatetime`.
  - The grammar is a value. `Tokens` holds the pieces of a line, `WellFormed` says each piece is in its character class, and `Concat` gives the text the pieces spell.
  - `Tokenize` is a maximal-munch matcher. It is proved sound and complete against that grammar, and `ParseLine` is built on it.
  - A line that the regular expression rejects gives `None`. Python raises at that point instead, when it calls `.group` on `None`.
- `Aggregator` (aggregator.dfy) models `Time`, `Date`, `_sum_new_and_previous_time` and the class `AggregatedTimeIntoDays`.
  - The class's dictionary is a `map<Date, Time>` together with the sequence of its keys in insertion order. That sequence is the order in which a Python dict iterates.
  - The value `Table` with the functions `WithKey` and `Added` specifies the mutating methods.
  - `Aggregate` folds `Added` over a sequence of parsed lines. Lemmas about the fold state the per-day totals and the first-seen order.
- `Driver` (driver.dfy) models `main`.
  - The lines the program would read from its input file are a parameter.
  - The (date, time) pairs it would print are returned instead.
  - A line that does not parse ends the run with `None`, where Python ends with an exception.

The pattern at time_parser.py:27 ends in `\)$`, so only the end of the line or one final newline may follow `)`. Trailing whitespace is rejected (`LineParser.TrailingTextRejected`, `LineParser.MalformedTrailing`).

## Model

| member | source | states |
|---|---|---|
| LineParser.IsSpace | time_parser.py:27 | `\s`: the ASCII characters Python treats as whitespace (tab to carriage return, 28 to 31, space) |
| LineParser.IsLetter | time_parser.py:21 | `[a-zA-Z]`: the ASCII letters |
| LineParser.IsDigit | time_parser.py:22-25 | `[0-9]`: the ASCII digits |
| LineParser.DigitValue | time_parser.py:33 | the value of one digit, below 10, as `int` gives the extra digit |
| LineParser.DigitsValue | time_parser.py:32-35 | the value Python's `int` gives a digit run, leading zeros allowed; `DecimalValue` proves it inverts decimal printing |
| LineParser.DecimalValue | time_parser.py:32-35 | reading the decimal text of any n gives n back, so `int` of a digit run inverts printing |
| LineParser.Span | time_parser.py:27 | a greedy character-class run: prefix and rest rebuild the input, the prefix is all in the class, and the rest does not start with a class member |
| LineParser.SpanOf | time_parser.py:27 | a run of class characters followed by a non-member is split exactly there |
| LineParser.Tokenize | time_parser.py:27-28 | the `re.search` of the pattern: splits a line into its maximal class runs and literal characters, or gives `None`; what it accepts is stated by `TokenizeSound`, `TokenizeComplete` and `TokenizeAfterParen` |
| LineParser.Meaning | time_parser.py:30-36 | the record built from the capture groups: month text, decimal day, optional extra digit value, decimal hours and minutes; `ParseLineCorrect` ties it to `ParseLine` |
| LineParser.TokenizeSound | time_parser.py:21-28 | whatever the matcher accepts is a well-formed token sequence that spells the line exactly |
| LineParser.TokenizeComplete | time_parser.py:21-28 | every well-formed token sequence is recovered from its own text, so every line of the grammar is accepted, and its pieces are unique |
| LineParser.TokenizeAfterParen | time_parser.py:27-28 | after ")" the matcher accepts the empty rest or one "\n" and nothing else |
| LineParser.ParseLine | time_parser.py:20-36 | a parsed record has a non-empty all-letter month and an extra number that is a single digit |
| LineParser.ParseLineCorrect | time_parser.py:20-36 | a line parses if and only if it is in the grammar, and then it parses to the meaning of its tokens: month text, decimal day, optional extra digit, decimal hours and minutes |
| LineParser.ParseUnparse | time_parser.py:20-36 | every record the parser can produce is parsed back from its canonical line |
| LineParser.TrailingTextRejected | time_parser.py:27-28 | text after ")" other than one final newline makes the line fail |
| LineParser.ParenRequired | time_parser.py:27 | a line whose day's whitespace is not followed by "(" fails |
| LineParser.ColonRequired | time_parser.py:27 | a line whose hours are not followed by ":" fails |
| LineParser.ParseBasicExample | time_parser.py:109-111 | "Jul 2   (04:17)" parses to month Jul, day 2, no extra, 4 hours, 17 minutes |
| LineParser.ParseExtraExample | time_parser.py:113-115 | "Jul 2   (1+12:44)" parses to month Jul, day 2, extra 1, 12 hours, 44 minutes |
| LineParser.ParseNewlineExample | time_parser.py:27-28 | a line with leading blanks and one final newline, as a line read from a file ends, parses to the same record as without them |
| LineParser.MalformedSentence | time_parser.py:27-28 | a line of prose does not parse |
| LineParser.MalformedMonth | time_parser.py:21 | a month with a digit in it does not parse |
| LineParser.MalformedNoGap | time_parser.py:27 | a month run straight into the day does not parse |
| LineParser.MalformedNoParen | time_parser.py:27 | a duration without "(" does not parse |
| LineParser.MalformedNoColon | time_parser.py:27 | a duration without ":" does not parse |
| LineParser.MalformedTrailing | time_parser.py:27-28 | a trailing space, or a second newline, after ")" makes the line fail |
| Aggregator.GetKey | time_parser.py:68-70 | `_get_key`: the `Date` of a record's month and day; `GetKeyIdentity` states when two records share it |
| Aggregator.GetKeyIdentity | time_parser.py:68-70 | two records share a key exactly when their month and day agree |
| Aggregator.SumNewAndPreviousTime | time_parser.py:76-83 | the sum keeps minutes below 60 and conserves total minutes: previous plus new plus 24 hours when an extra digit is present |
| Aggregator.BonusIsFlat | time_parser.py:77 | the bonus is the same 24 hours whatever the extra digit, and equals adding 24 to the new hours |
| Aggregator.NormalFormUnique | time_parser.py:80-83 | a time with minutes below 60 is determined by its total minutes, so the sum's result is the only normalised one |
| Aggregator.WithKey | time_parser.py:72-74 | a missing key is inserted at Time(0, 0) and appended as the last element of the order; a present key leaves the table unchanged; other keys keep their values |
| Aggregator.WithKeyConsistent | time_parser.py:72-74 | inserting a key keeps the table consistent: keys distinct, keys and order agree, minutes below 60 |
| Aggregator.Added | time_parser.py:56-66 | the record's day gains exactly the record's minutes, its minutes stay below 60, every other day is unchanged, and the order grows by one only for a new day, keeping its prefix |
| Aggregator.AddedConsistent | time_parser.py:52-74 | an add keeps the table consistent: keys distinct, keys and order agree, every stored minutes value below 60 |
| Aggregator.AddedOrder | time_parser.py:72-74 | an add appends the day to the order exactly when the day is new |
| Aggregator.Aggregate | time_parser.py:90-93 | the table after any sequence of adds is consistent |
| Aggregator.AggregateStep | time_parser.py:91-93 | one more record adds to the aggregate of the earlier ones |
| Aggregator.AggregateTotals | time_parser.py:56-83 | after any sequence of adds a day is stored exactly when some record has it, with the normalised sum of exactly that day's minutes |
| Aggregator.AggregateKeys | time_parser.py:85-87 | the days listed are exactly the days of the records added |
| Aggregator.AggregateOrder | time_parser.py:85-87 | days are listed in the order they were first seen; adding to a known day never moves it |
| Aggregator.AggregatedTimeIntoDays.constructor | time_parser.py:53-54 | a new aggregator is empty and consistent |
| Aggregator.AggregatedTimeIntoDays.Add | time_parser.py:56-66 | the new state is the value specification `Added` of the old one, and consistency is kept |
| Aggregator.AggregatedTimeIntoDays.InitInStorageIfNotExists | time_parser.py:72-74 | the new state is `WithKey` of the old one, and a consistent aggregator stays consistent |
| Aggregator.AggregatedTimeIntoDays.Items | time_parser.py:85-87 | iteration yields every stored day with its time, in first-insertion order |
| Aggregator.Entries | time_parser.py:85-87 | the pairs of a table follow its order, each day with its stored time |
| Aggregator.AggregateEntries | time_parser.py:85-87 | after any sequence of adds, iteration lists each day of the records once, in first-seen order, with that day's normalised total |
| Aggregator.AccumulationExample | time_parser.py:117-122 | two adds of 22:50 to Jul 2 make the first pair (Jul 2, 45:40) |
| Aggregator.ExtraNumberExample | time_parser.py:124-128 | one add of "1+" 23:50 to Jul 2 makes the first pair (Jul 2, 47:50) |
| Aggregator.IterationRepeatable | time_parser.py:85-87 | iterating twice with no add in between yields the same pairs |
| Driver.Results | time_parser.py:91-92 | one parse outcome per line |
| Driver.ResultsAt | time_parser.py:91-92 | the outcome at each index is `parse_line` of the line at that index |
| Driver.ParseAll | time_parser.py:91-92 | the parsed records of all lines, or `None` when one line fails; `ParseAllSucceeds` and `ParseAllRecords` state its meaning |
| Driver.ParseAllSucceeds | time_parser.py:91-92 | the lines all parse if and only if none of them fails |
| Driver.ParseAllRecords | time_parser.py:91-92 | when all lines parse, the records are those of the lines, in order |
| Driver.Report | time_parser.py:89-96 | what a run of `main` produces: the aggregate's pairs of all parsed records, or `None` when a line fails; `ReportDays` states its content and `Run` is proved equal to it |
| Driver.ReportDays | time_parser.py:89-96 | a successful run lists each day of the input once, in first-seen order, with the normalised sum of that day's lines |
| Driver.Run | time_parser.py:89-96 | the loop's result is the report: the aggregate's pairs of all parsed lines, or `None` when some line does not parse |
| Driver.RunStops | time_parser.py:91-92 | one line that does not parse makes the whole run fail |
| Driver.RunEnds | time_parser.py:95-96 | once every line has parsed, the run reports the pairs of the aggregate |

## Left out

- `line_reader` (time_parser.py:6-9) opens and reads a file. This is I/O, so the lines are a parameter of `Driver.Run`.
- The `print` formatting in `main` (time_parser.py:96) is console output. `Driver.Run` returns the pairs it would print.
- `get_key` (time_parser.py:38-39) builds a string key that the aggregator never uses. The aggregator keys by `Date` (time_parser.py:69-70).
- The unit tests (time_parser.py:104-128) appear only as the example lemmas and methods above. `test_file_reading` depends on a file on disk and is left out.
- The regular expression engine is not modelled in general. Only this one pattern is modelled, as a grammar.
  - `\s` is the ASCII whitespace that Python's `str.isspace` accepts. Non-ASCII whitespace is not modelled.
  - The month and digit classes are ASCII, as in the pattern.
- Aggregator.SumNewAndPreviousTime: `int(summed_minutes / 60)` is a float division in the source. It is modelled as integer division on naturals, which agrees for realistic values. Precision loss for huge totals is not modelled.
- Day, hours and minutes are naturals. The parser only yields digit runs, so negative values never arise from a line.
- `Date.month` is annotated `int` in the source but holds the month text. It is modelled as a string.
- LineParser.DigitsValue: Python's `int` refuses a digit run longer than 4300 characters with `ValueError`; the model gives its value. A grammar line with such a day, hours or minutes run makes `parse_line` raise, while `ParseLine` returns a record.
- Aggregator.AggregatedTimeIntoDays.Items: `__iter__` is a lazy generator over the live dict, while `Items` returns a finished list of the pairs. The model cannot express the `RuntimeError` Python raises when a key is added during iteration. Neither `main` nor the tests do that.
- Driver.Run: Python stops with an exception at the first line that does not parse. The model yields `None`, and it does not model any partial output, since nothing is printed before the loop ends.
