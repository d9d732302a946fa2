/**
 * The line grammar of the time log (time_parser.py, `parse_line`).
 *
 * A line is accepted exactly when it has the shape
 *
 *     WS* MONTH WS+ DAY WS+ "(" [DIGIT "+"] HOURS ":" MINUTES ")" ["\n"]
 *
 * where MONTH is a run of ASCII letters and DAY, HOURS, MINUTES are runs of
 * ASCII digits. The regular expression's `$` also matches just before one
 * final newline, which is why a single "\n" may follow the ")".
 *
 * The grammar is given as a value, `Tokens`, together with `WellFormed` (each
 * token belongs to its character class) and `Concat` (the text the tokens
 * spell). The matcher `Tokenize` is proved sound and complete against them.
 */
module LineParser {
  import opened Wrappers

  /** The record a parsed line becomes. */
  datatype ParsedDatetime = ParsedDatetime(
    month: string,
    day: nat,
    extraNumber: Option<nat>,
    hours: nat,
    minutes: nat)

  // ----- character classes (ASCII) -----

  /** `\s`: the ASCII characters for which Python's `str.isspace` holds. */
  predicate IsSpace(c: char) {
    c == ' ' || 9 <= c as int <= 13 || 28 <= c as int <= 31
  }

  /** `[a-zA-Z]` */
  predicate IsLetter(c: char) {
    'a' <= c <= 'z' || 'A' <= c <= 'Z'
  }

  /** `[0-9]` */
  predicate IsDigit(c: char) {
    '0' <= c <= '9'
  }

  datatype CharClass = Space | Letter | Digit

  predicate InClass(c: char, k: CharClass) {
    match k
    case Space => IsSpace(c)
    case Letter => IsLetter(c)
    case Digit => IsDigit(c)
  }

  /** Every character of `w` belongs to class `k`. */
  predicate AllIn(w: string, k: CharClass) {
    forall i :: 0 <= i < |w| ==> InClass(w[i], k)
  }

  // ----- decimal numbers -----

  function DigitValue(c: char): (v: nat)
    requires IsDigit(c)
    ensures v < 10
  {
    c as int - '0' as int
  }

  function DigitChar(v: nat): (c: char)
    requires v < 10
    ensures IsDigit(c) && DigitValue(c) == v
  {
    (v + '0' as int) as char
  }

  /** The value Python's `int` gives a run of decimal digits (leading zeros allowed). */
  function DigitsValue(ds: string): nat
    requires AllIn(ds, Digit)
    decreases |ds|
  {
    if ds == [] then 0 else DigitsValue(ds[..|ds| - 1]) * 10 + DigitValue(ds[|ds| - 1])
  }

  /** The shortest decimal spelling of `n`, as Python's `str` writes it. */
  function Decimal(n: nat): (ds: string)
    ensures ds != [] && AllIn(ds, Digit)
  {
    if n < 10 then [DigitChar(n)] else Decimal(n / 10) + [DigitChar(n % 10)]
  }

  lemma {:induction false} DecimalValue(n: nat)
    ensures DigitsValue(Decimal(n)) == n
  {
    if n >= 10 {
      var ds := Decimal(n);
      assert ds[..|ds| - 1] == Decimal(n / 10);
      DecimalValue(n / 10);
    }
  }

  // ----- the grammar -----

  /** The pieces a line is made of, whitespace included. */
  datatype Tokens = Tokens(
    lead: string,           // WS*
    month: string,          // [a-zA-Z]+
    gap1: string,           // WS+
    day: string,            // [0-9]+
    gap2: string,           // WS+
    extra: Option<char>,    // ([0-9])\+ when present
    hours: string,          // [0-9]+
    minutes: string,        // [0-9]+
    newline: bool)          // the one "\n" that `$` lets through

  predicate WellFormed(t: Tokens) {
    && AllIn(t.lead, Space)
    && t.month != [] && AllIn(t.month, Letter)
    && t.gap1 != [] && AllIn(t.gap1, Space)
    && t.day != [] && AllIn(t.day, Digit)
    && t.gap2 != [] && AllIn(t.gap2, Space)
    && (t.extra.Some? ==> IsDigit(t.extra.value))
    && t.hours != [] && AllIn(t.hours, Digit)
    && t.minutes != [] && AllIn(t.minutes, Digit)
  }

  function ExtraText(extra: Option<char>): string {
    if extra.Some? then [extra.value, '+'] else []
  }

  function Ending(newline: bool): string {
    if newline then "\n" else ""
  }

  /** The date part of the tokens' text (through the whitespace before "("), then `rest`. */
  function DateText(t: Tokens, rest: string): string {
    t.lead + (t.month + (t.gap1 + (t.day + (t.gap2 + rest))))
  }

  /** The optional digit and "+", then the hours, then `rest`. */
  function HoursText(t: Tokens, rest: string): string {
    ExtraText(t.extra) + (t.hours + rest)
  }

  /** The tokens' text up to and including ")", then `after`. */
  function Spell(t: Tokens, after: string): string {
    DateText(t, ['('] + HoursText(t, [':'] + (t.minutes + ([')'] + after))))
  }

  /** The text the tokens spell, left to right. */
  function Concat(t: Tokens): string {
    Spell(t, Ending(t.newline))
  }

  /** The record the capture groups of a well-formed line become. */
  function Meaning(t: Tokens): ParsedDatetime
    requires WellFormed(t)
  {
    ParsedDatetime(
      t.month,
      DigitsValue(t.day),
      if t.extra.Some? then Some(DigitValue(t.extra.value)) else None,
      DigitsValue(t.hours),
      DigitsValue(t.minutes))
  }

  /** The line belongs to the grammar. */
  ghost predicate Matches(line: string) {
    exists t :: WellFormed(t) && Concat(t) == line
  }

  // ----- the matcher -----

  /** Splits off the longest prefix of `s` whose characters are all in class `k`. */
  function Span(s: string, k: CharClass): (r: (string, string))
    ensures r.0 + r.1 == s
    ensures AllIn(r.0, k)
    ensures r.1 == [] || !InClass(r.1[0], k)
    decreases |s|
  {
    if s == [] || !InClass(s[0], k) then ([], s)
    else
      var rest := Span(s[1..], k);
      ([s[0]] + rest.0, rest.1)
  }

  /** A prefix that ends where class `k` ends is exactly what `Span` splits off. */
  lemma {:induction false} SpanOf(w: string, rest: string, k: CharClass)
    requires AllIn(w, k)
    requires rest == [] || !InClass(rest[0], k)
    ensures Span(w + rest, k) == (w, rest)
  {
    if w != [] {
      assert (w + rest)[0] == w[0];
      assert (w + rest)[1..] == w[1..] + rest;
      SpanOf(w[1..], rest, k);
      assert [w[0]] + w[1..] == w;
    } else {
      assert w + rest == rest;
    }
  }

  /** Cuts a line into its tokens, the way the anchored regular expression does. */
  function Tokenize(line: string): Option<Tokens> {
    var (lead, s1) := Span(line, Space);
    var (month, s2) := Span(s1, Letter);
    var (gap1, s3) := Span(s2, Space);
    var (day, s4) := Span(s3, Digit);
    var (gap2, s5) := Span(s4, Space);
    if month == [] || gap1 == [] || day == [] || gap2 == [] || s5 == [] || s5[0] != '(' then None
    else
      var s6 := s5[1..];
      var (extra, s7) :=
        if |s6| >= 2 && IsDigit(s6[0]) && s6[1] == '+' then (Some(s6[0]), s6[2..]) else (None, s6);
      var (hours, s8) := Span(s7, Digit);
      if hours == [] || s8 == [] || s8[0] != ':' then None
      else
        var (minutes, s9) := Span(s8[1..], Digit);
        if minutes == [] || s9 == [] || s9[0] != ')' then None
        else if s9[1..] == Ending(false) then
          Some(Tokens(lead, month, gap1, day, gap2, extra, hours, minutes, false))
        else if s9[1..] == Ending(true) then
          Some(Tokens(lead, month, gap1, day, gap2, extra, hours, minutes, true))
        else None
  }

  /** What the matcher finds is well formed and spells the line back. */
  lemma TokenizeSound(line: string)
    ensures Tokenize(line).Some? ==> WellFormed(Tokenize(line).value) && Concat(Tokenize(line).value) == line
  {
    var (lead, s1) := Span(line, Space);
    var (month, s2) := Span(s1, Letter);
    var (gap1, s3) := Span(s2, Space);
    var (day, s4) := Span(s3, Digit);
    var (gap2, s5) := Span(s4, Space);
    if Tokenize(line).Some? {
      assert s5 == ['('] + s5[1..];
      var s6 := s5[1..];
      var (extra, s7) :=
        if |s6| >= 2 && IsDigit(s6[0]) && s6[1] == '+' then (Some(s6[0]), s6[2..]) else (None, s6);
      assert s6 == ExtraText(extra) + s7;
      var (hours, s8) := Span(s7, Digit);
      assert s8 == [':'] + s8[1..];
      var (minutes, s9) := Span(s8[1..], Digit);
      assert s9 == [')'] + s9[1..];
    }
  }

  /** The five leading tokens are what the first five spans split off. */
  lemma DateSpans(t: Tokens, rest: string)
    requires WellFormed(t)
    requires rest == [] || !IsSpace(rest[0])
    ensures var s1 := t.month + (t.gap1 + (t.day + (t.gap2 + rest)));
            var s2 := t.gap1 + (t.day + (t.gap2 + rest));
            var s3 := t.day + (t.gap2 + rest);
            var s4 := t.gap2 + rest;
            && Span(DateText(t, rest), Space) == (t.lead, s1)
            && Span(s1, Letter) == (t.month, s2)
            && Span(s2, Space) == (t.gap1, s3)
            && Span(s3, Digit) == (t.day, s4)
            && Span(s4, Space) == (t.gap2, rest)
  {
    var s4 := t.gap2 + rest;
    var s3 := t.day + s4;
    var s2 := t.gap1 + s3;
    var s1 := t.month + s2;
    SpanOf(t.lead, s1, Space);
    SpanOf(t.month, s2, Letter);
    SpanOf(t.gap1, s3, Space);
    SpanOf(t.day, s4, Digit);
    SpanOf(t.gap2, rest, Space);
  }

  /** After "(", the optional digit and "+" and then the hours are what the matcher splits off. */
  lemma HoursSpans(t: Tokens, rest: string)
    requires WellFormed(t)
    requires rest == [] || (!IsDigit(rest[0]) && rest[0] != '+')
    ensures var s6 := HoursText(t, rest);
            var s7 := t.hours + rest;
            && (if |s6| >= 2 && IsDigit(s6[0]) && s6[1] == '+' then (Some(s6[0]), s6[2..]) else (None, s6))
               == (t.extra, s7)
            && Span(s7, Digit) == (t.hours, rest)
  {
    var s7 := t.hours + rest;
    var s6 := HoursText(t, rest);
    if t.extra.Some? {
      assert s6[2..] == s7;
    } else {
      assert s6 == s7;
      if |t.hours| == 1 {
        assert s7[1..] == rest;
      } else {
        assert s7[1] == t.hours[1];
      }
    }
    SpanOf(t.hours, rest, Digit);
  }

  /**
   * A well-formed line is found again, so the grammar is unambiguous; and
   * after ")" only the empty text or one newline is accepted.
   */
  lemma TokenizeAfterParen(t: Tokens, after: string)
    requires WellFormed(t)
    ensures Tokenize(Spell(t, after)) ==
      if after == Ending(false) then Some(t.(newline := false))
      else if after == Ending(true) then Some(t.(newline := true))
      else None
  {
    var tail := [')'] + after;
    var afterColon := t.minutes + tail;
    var afterHours := [':'] + afterColon;
    var s5 := ['('] + HoursText(t, afterHours);
    DateSpans(t, s5);
    assert s5[1..] == HoursText(t, afterHours);
    HoursSpans(t, afterHours);
    assert afterHours[1..] == afterColon;
    SpanOf(t.minutes, tail, Digit);
    assert tail[1..] == after;
  }

  lemma TokenizeComplete(t: Tokens)
    requires WellFormed(t)
    ensures Tokenize(Concat(t)) == Some(t)
  {
    TokenizeAfterParen(t, Ending(t.newline));
  }

  /** parse_line: `None` where Python's `re.search` finds no match. */
  function ParseLine(line: string): (r: Option<ParsedDatetime>)
    ensures r.Some? ==> Printable(r.value)
  {
    TokenizeSound(line);
    match Tokenize(line)
    case None => None
    case Some(t) => Some(Meaning(t))
  }

  /** A line parses exactly when it belongs to the grammar, and then to the meaning of its tokens. */
  lemma ParseLineCorrect(line: string)
    ensures ParseLine(line).Some? <==> Matches(line)
    ensures forall t :: WellFormed(t) && Concat(t) == line ==> ParseLine(line) == Some(Meaning(t))
  {
    forall t | WellFormed(t) && Concat(t) == line
      ensures ParseLine(line) == Some(Meaning(t))
    {
      TokenizeComplete(t);
    }
    TokenizeSound(line);
    if ParseLine(line).Some? {
      var t := Tokenize(line).value;
      assert WellFormed(t) && Concat(t) == line;
    }
  }

  // ----- printing a record back as a line -----

  /** The records that some line parses to. */
  predicate Printable(p: ParsedDatetime) {
    && p.month != [] && AllIn(p.month, Letter)
    && (p.extraNumber.Some? ==> p.extraNumber.value < 10)
  }

  /** The canonical line for `p`: single spaces, no leading zeros, no newline. */
  function Unparse(p: ParsedDatetime): string
    requires Printable(p)
  {
    Concat(Tokens(
      "", p.month, " ", Decimal(p.day), " ",
      if p.extraNumber.Some? then Some(DigitChar(p.extraNumber.value)) else None,
      Decimal(p.hours), Decimal(p.minutes), false))
  }

  lemma ParseUnparse(p: ParsedDatetime)
    requires Printable(p)
    ensures ParseLine(Unparse(p)) == Some(p)
  {
    var t := Tokens(
      "", p.month, " ", Decimal(p.day), " ",
      if p.extraNumber.Some? then Some(DigitChar(p.extraNumber.value)) else None,
      Decimal(p.hours), Decimal(p.minutes), false);
    TokenizeComplete(t);
    DecimalValue(p.day);
    DecimalValue(p.hours);
    DecimalValue(p.minutes);
  }

  // ----- lines that fail -----

  /** Anything after ")" other than one final newline makes the line fail. */
  lemma TrailingTextRejected(t: Tokens, after: string)
    requires WellFormed(t)
    ensures ParseLine(Spell(t, after)).Some? <==> after == "" || after == "\n"
  {
    TokenizeAfterParen(t, after);
  }

  /** Without "(" after the day's whitespace the line fails. */
  lemma ParenRequired(t: Tokens, rest: string)
    requires WellFormed(t)
    requires rest == [] || (rest[0] != '(' && !IsSpace(rest[0]))
    ensures ParseLine(DateText(t, rest)) == None
  {
    DateSpans(t, rest);
  }

  /** Without ":" right after the hours the line fails. */
  lemma ColonRequired(t: Tokens, rest: string)
    requires WellFormed(t)
    requires rest == [] || (rest[0] != ':' && rest[0] != '+' && !IsDigit(rest[0]))
    ensures ParseLine(DateText(t, ['('] + HoursText(t, rest))) == None
  {
    var s5 := ['('] + HoursText(t, rest);
    DateSpans(t, s5);
    assert s5[1..] == HoursText(t, rest);
    HoursSpans(t, rest);
  }

  // ----- the lines of the unit tests, and lines outside the grammar -----

  // Each concrete line is passed as a parameter fixed by `requires`, which
  // keeps the verifier from unfolding the matcher on the literal text.

  /** Reduces a concrete line to its tokens and their meaning. */
  lemma ParsesAs(line: string, t: Tokens, p: ParsedDatetime)
    requires WellFormed(t) && Concat(t) == line && Meaning(t) == p
    ensures ParseLine(line) == Some(p)
  {
    TokenizeComplete(t);
  }

  lemma ParseBasicExample()
    ensures ParseLine("Jul 2   (04:17)") == Some(ParsedDatetime("Jul", 2, None, 4, 17))
  {
    var t := Tokens("", "Jul", " ", "2", "   ", None, "04", "17", false);
    assert Concat(t) == "Jul 2   (04:17)";
    assert DigitsValue("04") == 4 by { assert "04"[..1] == "0"; }
    assert DigitsValue("17") == 17 by { assert "17"[..1] == "1"; }
    ParsesAs("Jul 2   (04:17)", t, ParsedDatetime("Jul", 2, None, 4, 17));
  }

  /** The digit before "+" is captured as it is; the hours are the run after it. */
  lemma ParseExtraExample()
    ensures ParseLine("Jul 2   (1+12:44)") == Some(ParsedDatetime("Jul", 2, Some(1), 12, 44))
  {
    var t := Tokens("", "Jul", " ", "2", "   ", Some('1'), "12", "44", false);
    assert Concat(t) == "Jul 2   (1+12:44)";
    assert DigitsValue("12") == 12 by { assert "12"[..1] == "1"; }
    assert DigitsValue("44") == 44 by { assert "44"[..1] == "4"; }
    ParsesAs("Jul 2   (1+12:44)", t, ParsedDatetime("Jul", 2, Some(1), 12, 44));
  }

  /** Leading whitespace and one final newline are accepted. */
  lemma ParseNewlineExample()
    ensures ParseLine("  Jul 2 (04:17)\n") == Some(ParsedDatetime("Jul", 2, None, 4, 17))
  {
    var t := Tokens("  ", "Jul", " ", "2", " ", None, "04", "17", true);
    assert Concat(t) == "  Jul 2 (04:17)\n";
    assert DigitsValue("04") == 4 by { assert "04"[..1] == "0"; }
    assert DigitsValue("17") == 17 by { assert "17"[..1] == "1"; }
    ParsesAs("  Jul 2 (04:17)\n", t, ParsedDatetime("Jul", 2, None, 4, 17));
  }

  /** A line with no digits where the day belongs. */
  lemma MalformedSentence(line: string)
    requires line == "not a valid line"
    ensures ParseLine(line) == None
  {
    SpanOf([], line, Space);
    assert line == "not" + " a valid line";
    SpanOf("not", " a valid line", Letter);
    assert " a valid line" == " " + "a valid line";
    SpanOf(" ", "a valid line", Space);
    SpanOf([], "a valid line", Digit);
  }

  /** A month containing a digit. */
  lemma MalformedMonth(line: string)
    requires line == "J4l 2 (04:17)"
    ensures ParseLine(line) == None
  {
    SpanOf([], line, Space);
    assert line == "J" + "4l 2 (04:17)";
    SpanOf("J", "4l 2 (04:17)", Letter);
    SpanOf([], "4l 2 (04:17)", Space);
  }

  /** No whitespace between month and day. */
  lemma MalformedNoGap(line: string)
    requires line == "Jul2 (04:17)"
    ensures ParseLine(line) == None
  {
    SpanOf([], line, Space);
    assert line == "Jul" + "2 (04:17)";
    SpanOf("Jul", "2 (04:17)", Letter);
    SpanOf([], "2 (04:17)", Space);
  }

  /** The opening parenthesis is missing. */
  lemma MalformedNoParen(line: string)
    requires line == "Jul 2 04:17)"
    ensures ParseLine(line) == None
  {
    var t := Tokens("", "Jul", " ", "2", " ", None, "04", "17", false);
    assert DateText(t, "04:17)") == line;
    ParenRequired(t, "04:17)");
  }

  /** The colon is missing. */
  lemma MalformedNoColon(line: string)
    requires line == "Jul 2 (0417)"
    ensures ParseLine(line) == None
  {
    var t := Tokens("", "Jul", " ", "2", " ", None, "0417", "17", false);
    assert DateText(t, ['('] + HoursText(t, ")")) == line;
    ColonRequired(t, ")");
  }

  /** Whitespace, or a second newline, after ")". */
  lemma MalformedTrailing(line: string)
    requires line == "Jul 2 (04:17) " || line == "Jul 2 (04:17)\n\n"
    ensures ParseLine(line) == None
  {
    var t := Tokens("", "Jul", " ", "2", " ", None, "04", "17", false);
    if line == "Jul 2 (04:17) " {
      assert Spell(t, " ") == line;
      TrailingTextRejected(t, " ");
    } else {
      assert Spell(t, "\n\n") == line;
      TrailingTextRejected(t, "\n\n");
    }
  }
}
